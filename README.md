# NexCallAI voice-call core, modelled in Dafny

This project models the voice-call core of the NexCallAI call-centre platform and proves properties of that model.

**The webhook.** The Twilio webhook receives one POST per telephony event. It keeps a process-wide map from CallSid to conversation context. On the first `in-progress` of a call it greets the caller. On each recognised utterance it runs one turn of the AI agent, and on a terminal status it writes a summary of the conversation to the call's transcript. It records every turn in the `calls` and `call_conversations` tables, and answers with one of four TwiML replies.

**The rest of the core:**
- the agent itself: the greeting, the turn with its success and failure paths, and the summary prompt;
- the `generateTwiML` template;
- the calls REST route (`GET` by id or a page newest first, `POST` a new outbound call, `PUT` a status or transcript by SID);
- the transcript parser of the call page;
- the duration format, status badge and direction label of the calls table and the call details card.

## Modules

| module | file | models |
|---|---|---|
| `Options` | options.dfy | null / undefined as `Option` |
| `JsString` | js_string.dfy | `trim`, `split`, `join`, `startsWith`, `padStart`, `toString` on `seq<char>` |
| `Twilio` | twilio.dfy | `generateTwiML` |
| `AiAgent` | ai_agent.dfy | `createAgent`: system prompt, `handleIncomingCall`, `processInput`, `generateConversationSummary` |
| `CallRecords` | call_records.dfy | the `calls` / `call_conversations` tables, their keys, foreign key and column defaults, and the store object |
| `TwimlRoute` | twiml_route.dfy | the webhook `POST` and its three persistence helpers |
| `CallsApi` | calls_api.dfy | `GET`, `POST`, `PUT` of the calls route |
| `CallTranscription` | call_transcription.dfy | the transcript parser |
| `CallsTable` | calls_table.dfy | `formatDuration`, `CallStatusBadge`, direction label, null duration |
| `CallDetails` | call_details.dfy | the details card, built on the `CallsTable` definitions |

## How the model is built

The code that updates state in place is imperative Dafny:
- the webhook's context map;
- each context's `currentConversation`;
- the record store;
- the transcript reducer's accumulator.

Each method there is proved to leave exactly the state that a pure function of the old state describes:
- `TwimlWebhook.Post` against `Step`;
- `CallsApi.Put` against `PutResult`;
- `CallTranscription.ParseTranscript` against `Messages`.

The properties the code promises are then lemmas about those functions.

**Inputs from outside the core are parameters:**
- The OpenAI chat call is a function from the exact messages sent to `Generated(content)` or `GenerationFailed`.
- The Twilio REST calls are functions returning `None` when they throw.
- `createId()` is a counter that hands out ids above every stored one.
- `new Date()` is a `now: nat` parameter.
- A form field or body field that is absent is the empty string. Where the code only tests a field for truthiness, the two behave alike. The webhook's `CallSid` is the exception: it is written to the database untested, see "## Left out".

**Where the code and its description differ, the model follows the code:**
- `canceled` is not a terminal status (route.ts:98), so a canceled call keeps its context.
- On a backend failure the apology is spoken and stored as an entry, but it is not appended to the history.
- Messages are put into the TwiML unescaped. Section 2.4 of the XML 1.0 specification requires `<` and `&` in character data to be escaped, and the model does not claim that they are.
- The greeting is a fixed template. No backend call is made for it.
- `call_conversations.call_sid` references `calls.twilio_sid` (schema.ts:55), so the database refuses a turn for a call with no row. `saveConversationEntry` swallows that refusal, so nothing is stored.
- A row that `updateCallStatus` inserts takes the column default `outbound` as its direction.
- `PUT` answers with the first updated row. That is the first stored row with the SID, patched.
- The listing is SQL `LIMIT`/`OFFSET` over the calls ordered by `createdAt`, newest first. The drizzle query builder writes `LIMIT` only for a limit that is not negative, and `OFFSET` only for an offset that is not zero. So a negative limit lists every call from the offset on. Only a negative offset reaches the database, which refuses it, and the route answers 500.
- `initiateCall` returns the `to` and `from` it was given (twilio.ts:34-37), so `POST` stores the numbers of the request.

## Model

| member | source | states |
|---|---|---|
| Twilio.SayTextRoundTrip | lib/twilio.ts:117-122 | removing the fixed declaration/`<Response>`/`<Say voice="Polly.Joanna" language="fr-FR">` prefix and `</Say></Response>` suffix gives back exactly the message, whatever characters it holds (no escaping) |
| Twilio.GenerateTwiMLInjective | lib/twilio.ts:118-121 | distinct messages give distinct documents |
| Twilio.GenerateTwiMLFrame | lib/twilio.ts:118-121 | the document is message length plus a constant, starts with the XML declaration and ends with the fixed closing text |
| AiAgent.ChatMessages | lib/ai-agent.ts:104-107 | the messages sent to the backend are the system prompt followed by the whole history in order |
| AiAgent.Greeting | lib/ai-agent.ts:201 | the greeting is never empty and names the company right after `Bonjour, vous êtes en ligne avec ` |
| AiAgent.SystemPrompt | lib/ai-agent.ts:66-85 | each guideline reaches the backend as a line of its own in the system prompt, when no guideline holds a line break |
| AiAgent.ConversationContext.constructor | lib/ai-agent.ts:194-198 | a new context holds the call id, the caller's number and an empty history |
| AiAgent.HandleIncomingCall | lib/ai-agent.ts:190-217 | the context has `callId = call.id`, `customerPhone = call.from` and history exactly [assistant greeting]; the response speaks the greeting with action none |
| AiAgent.ProcessInput | lib/ai-agent.ts:93-145 | the history becomes the old history plus the user turn, plus the reply only on success; the backend gets the system prompt and the history with the new user turn; the response is the one for the backend's outcome |
| AiAgent.SuccessfulTurn | lib/ai-agent.ts:118-133 | on success exactly the user turn and the spoken reply are appended, action none, empty content replaced by `Je suis désolé, je n'ai pas compris.` |
| AiAgent.FailedTurn | lib/ai-agent.ts:134-144 | on failure only the user turn is appended; the fixed apology is spoken with a `transfer` action, reason `technical_error` |
| AiAgent.ResponseIsSpoken | lib/ai-agent.ts:118-143 | every response has a non-empty message and its `twiML` is `generateTwiML(message)`, which reads back as that message |
| AiAgent.TurnAppendsUserFirst | lib/ai-agent.ts:98-101 | a turn keeps the old history as prefix, puts the user input right after it, adds exactly one user turn and never stores a system message |
| AiAgent.GenerateConversationSummary | lib/ai-agent.ts:152-183 | the summary is never empty: the backend's content, `Aucun résumé disponible.` or `Erreur lors de la génération du résumé.`: the backend's content whenever it is non-empty, `Aucun résumé disponible.` when it is empty, and the error text whenever the backend throws |
| AiAgent.SummaryLineHasNoNewline | lib/ai-agent.ts:165 | a turn without a line break gives a summary line without one |
| AiAgent.FlattenHistoryLines | lib/ai-agent.ts:164-166 | for a non-empty history in which no turn's text holds a line break, the summary input splits into one `Client: `/`Agent: ` line per turn, in history order |
| CallRecords.StatusNameRoundTrip | types/call.ts:42-52 | the nine status names and the status set correspond one to one |
| CallRecords.FindBySid | app/api/twiml/route.ts:207-209 | `findFirst` by SID finds a row iff one has that SID, and then the first such row |
| CallRecords.FindBySidUnique | lib/db/schema.ts:38 | with unique SIDs, the row found is the only row with that SID |
| CallRecords.FindById | app/api/calls/route.ts:51-53 | `findFirst` by id finds a row iff one has that id, and it is a stored row with that id |
| CallRecords.TakeIdKeepsWellFormed | app/api/calls/route.ts:113 | handing out a fresh id keeps the table constraints and changes no row |
| CallRecords.FreshIdIsFree | lib/db/schema.ts:36-59 | a fresh id collides with no stored call or entry id |
| CallRecords.InsertCallKeepsWellFormed | lib/db/schema.ts:36-50 | inserting a call (refused on a taken id or SID) keeps the primary key, unique SID and foreign key constraints |
| CallRecords.UpdateWhereSidKeepsKeys | app/api/calls/route.ts:152-160 | an update by SID keeps the number of rows and every id and SID |
| CallRecords.UpdateWhereSidNoop | app/api/calls/route.ts:152-160 | an update whose patch leaves every matching row as it is changes nothing |
| CallRecords.UpdatedRowIsFound | app/api/calls/route.ts:152-162 | with unique SIDs the updated row is the one found by its SID afterwards, and other rows are kept |
| CallRecords.UpdateKeepsWellFormed | lib/db/schema.ts:36-59 | an update by SID keeps the table constraints |
| CallRecords.InsertEntryKeepsWellFormed | lib/db/schema.ts:53-59 | inserting an entry (refused when no call has its SID or its id is taken) keeps the table constraints |
| CallRecords.CallDb.constructor | lib/db/schema.ts:36-59 | the store starts with empty tables |
| CallRecords.CallDb.CreateId | app/api/calls/route.ts:113 | `createId()` returns the counter and advances it |
| CallRecords.CallDb.InsertCall | app/api/calls/route.ts:112-121 | the insert appends the row unless its id or SID is taken, and reports which |
| CallRecords.CallDb.UpdateWhere | app/api/calls/route.ts:152-160 | every row with the SID is patched and stamped, nothing else changes |
| CallRecords.CallDb.InsertConversation | app/api/twiml/route.ts:238-250 | the insert appends the entry unless no call has its SID or its id is taken |
| TwimlRoute.Render | app/api/twiml/route.ts:81-185 | only the hang-up body is empty; every other body starts with the XML declaration and its first `<Say>` speaks the message verbatim |
| TwimlRoute.ParseRender | app/api/twiml/route.ts:81-185 | each of the four replies (Say+Gather, Say+Say+Dial, empty, single Say) reads back from its body, shape and unescaped message |
| TwimlRoute.RenderInjective | app/api/twiml/route.ts:81-185 | distinct replies have distinct bodies |
| TwimlRoute.ReplyFor | app/api/twiml/route.ts:140-174 | only a `transfer` action dials out; every other action, `callback` and `schedule` included, keeps listening, with the agent's message |
| TwimlRoute.StatusUpsertedExisting | app/api/twiml/route.ts:204-219 | for a call with a row, `updateCallStatus` sets that row's status and no other row or entry changes |
| TwimlRoute.StatusUpsertedNew | app/api/twiml/route.ts:222-228 | for a call with no row, one row is appended with the status, no numbers and direction `outbound` |
| TwimlRoute.StatusUpsertedProperties | app/api/twiml/route.ts:204-233 | either way the store stays well formed and the call's row has the status; no entry changes |
| TwimlRoute.EntrySavedProperties | app/api/twiml/route.ts:238-250 | `saveConversationEntry` appends exactly its entry for a call with a row and stores nothing otherwise; call rows never change |
| TwimlRoute.EntrySavedForKnownCall | app/api/twiml/route.ts:238-250 | for a call with a row the entry is appended with the next id |
| TwimlRoute.TranscriptUpdatedProperties | app/api/twiml/route.ts:255-267 | `updateCallTranscript` sets the transcript of the call's rows and no other row, keeping statuses |
| TwimlRoute.TranscriptUpdatedFound | app/api/twiml/route.ts:255-267 | afterwards the call's row is found with the transcript and a new `updatedAt` |
| TwimlRoute.StatusStepGreets | app/api/twiml/route.ts:64-95 | the first status-only `in-progress` of a call stores a context with the greeting, saves it and listens |
| TwimlRoute.GreetStep | app/api/twiml/route.ts:59-95 | the same for the whole handler: a status-only `in-progress` for a call with no context takes the greeting branch |
| TwimlRoute.GreetingSaved | app/api/twiml/route.ts:61-78 | recording `in-progress` then saving the greeting leaves the call's row in progress and exactly the greeting entry appended |
| TwimlRoute.GreetingOpensConversation | app/api/twiml/route.ts:59-95 | exactly one context is added, its history the single assistant greeting; the reply is Say(greeting)+Gather; the row is `in-progress`; exactly one assistant entry with the greeting is appended |
| TwimlRoute.TerminalStep | app/api/twiml/route.ts:98-113 | on a terminal status the context is removed, the reply is empty, and the summary becomes the transcript when a context existed |
| TwimlRoute.TerminalStatusClosesConversation | app/api/twiml/route.ts:98-113 | after a terminal status no context remains, the body is empty, no entry is written, the row has the status and, when there was a conversation, its summary as transcript |
| TwimlRoute.TerminalStatusIsIdempotent | app/api/twiml/route.ts:98-113 | delivering the same terminal event a second time changes nothing and hangs up again |
| TwimlRoute.StatusUpsertedStamps | app/api/twiml/route.ts:204-233 | after `updateCallStatus` every row with the SID has the status, stamped now |
| TwimlRoute.StampedUpdateIsNoop | app/api/twiml/route.ts:211-219 | updating rows that already hold the status at the same time changes nothing |
| TwimlRoute.ClosedCallIsStamped | app/api/twiml/route.ts:61-113 | after a terminal status every row of the call has that status |
| TwimlRoute.StampedTerminalIsNoop | app/api/twiml/route.ts:98-113 | a terminal status for a call with no context whose row already holds it changes nothing |
| TwimlRoute.OtherStatusOnlyRecordsIt | app/api/twiml/route.ts:59-185 | `ringing`, `canceled`, a repeated `in-progress` and every other non-terminal status only record the status: contexts and entries are kept, and the default single-Say message is spoken |
| TwimlRoute.CanceledKeepsConversation | app/api/twiml/route.ts:98 | `canceled` is not terminal: the contexts are kept |
| TwimlRoute.InProgressIsNotTerminal | app/api/twiml/route.ts:64-98 | `in-progress` is not among the terminal statuses |
| TwimlRoute.SpeechRunsOneTurn | app/api/twiml/route.ts:117-175 | a speech event runs one agent turn on the call's context (a new one for an unknown call); the backend sees the system prompt and the whole history with the new user turn; other contexts are kept; the call rows, status included, are not touched |
| TwimlRoute.SpeechStepRunsOneTurn | app/api/twiml/route.ts:117-175 | the same for the speech branch alone |
| TwimlRoute.SpeechFromUnknownCall | app/api/twiml/route.ts:119-128 | speech for an unknown CallSid creates a context with `customerPhone = From`, whose history after a successful turn is exactly [user, assistant] |
| TwimlRoute.FailedGenerationTransfers | app/api/twiml/route.ts:134-157 | on a backend failure the reply is apology+transfer notice+Dial, only the user turn joins the history, and both the user text and the apology are stored |
| TwimlRoute.SpeechPersistsBothTurns | app/api/twiml/route.ts:131-137 | a speech event stores exactly two entries, the user text then the spoken message, for a call with a row, and none otherwise; call rows never change |
| TwimlRoute.TurnSaved | app/api/twiml/route.ts:131-137 | saving the user text then the answer appends those two entries in that order, or none for a call with no row |
| TwimlRoute.IgnoredEventChangesNothing | app/api/twiml/route.ts:59-185 | an event with no status and no speech, or speech without a SID, changes nothing and gets the default message |
| TwimlRoute.Step | app/api/twiml/route.ts:46-199 | the reply is empty exactly on a terminal status, a transfer comes only from a speech turn, and every other reply speaks a non-empty message |
| TwimlRoute.StatusReplyShape | app/api/twiml/route.ts:59-115 | a status-only event hangs up exactly on a terminal status and never transfers |
| TwimlRoute.StatusStepKeepsConsistent | app/api/twiml/route.ts:59-115 | the status branch keeps the tables well formed, each context keyed by its own call id, and no history holding a system message |
| TwimlRoute.SpeechStepKeepsConsistent | app/api/twiml/route.ts:117-175 | the speech branch keeps the same invariant |
| TwimlRoute.StepKeepsConsistent | app/api/twiml/route.ts:46-199 | every event keeps the invariant |
| TwimlRoute.RunKeepsConsistent | app/api/twiml/route.ts:41-199 | any sequence of events keeps the invariant |
| TwimlRoute.StepCountsUserTurn | app/api/twiml/route.ts:117-134 | an event that does not end the call adds one user turn to its history exactly when it is a speech event |
| TwimlRoute.UserTurnsCountSpeechEvents | app/api/twiml/route.ts:117-134 | over a call that does not end, the history holds one user turn per speech event, whatever the backend answers |
| TwimlRoute.TwimlWebhook.constructor | app/api/twiml/route.ts:10-41 | the handler starts with the default agent configuration and no context |
| TwimlRoute.TwimlWebhook.UpdateCallStatus | app/api/twiml/route.ts:204-233 | the store afterwards is the upsert of the status |
| TwimlRoute.TwimlWebhook.SaveConversationEntry | app/api/twiml/route.ts:238-250 | the store afterwards has the entry saved (or the refusal swallowed) |
| TwimlRoute.TwimlWebhook.UpdateCallTranscript | app/api/twiml/route.ts:255-267 | the store afterwards has the transcript set on the call's rows |
| TwimlRoute.TwimlWebhook.Greet | app/api/twiml/route.ts:74-94 | a new context holding the greeting is stored under the SID, the greeting is saved, and Say+Gather is returned |
| TwimlRoute.TwimlWebhook.Close | app/api/twiml/route.ts:100-109 | the summary of the context's history becomes the transcript, and the context is deleted |
| TwimlRoute.TwimlWebhook.HandleStatus | app/api/twiml/route.ts:59-115 | the status branch leaves the contexts and store as `StatusStep` says and returns its reply |
| TwimlRoute.TwimlWebhook.React | app/api/twiml/route.ts:64-115 | after the status update: greet, close or acknowledge, as `StatusReaction` says |
| TwimlRoute.TwimlWebhook.ContextFor | app/api/twiml/route.ts:119-128 | returns the stored context, or stores and returns a fresh one with `customerPhone = From` and an empty history |
| TwimlRoute.TwimlWebhook.TakeTurn | app/api/twiml/route.ts:131-137 | the user entry, the agent turn and the assistant entry, in that order |
| TwimlRoute.TwimlWebhook.Converse | app/api/twiml/route.ts:131-174 | one turn on the call's context, both entries stored, and the reply for the agent's response |
| TwimlRoute.TwimlWebhook.HandleSpeech | app/api/twiml/route.ts:117-175 | the speech branch leaves the contexts and store as `SpeechStep` says and returns its reply |
| TwimlRoute.TwimlWebhook.Post | app/api/twiml/route.ts:46-199 | one event leaves the contexts and store as `Step` says, returns its reply and keeps the invariant |
| CallsApi.InsertByDate | app/api/calls/route.ts:82 | inserting a call into a newest-first list keeps it newest first and adds exactly that call |
| CallsApi.SortNewestFirst | app/api/calls/route.ts:82 | `orderBy desc(createdAt)` gives a newest-first permutation of the calls |
| CallsApi.WindowIsSlice | app/api/calls/route.ts:79-83 | `LIMIT`/`OFFSET` selects the rows from `offset` up to `offset + limit`, at most `limit` of them |
| CallsApi.WindowOfNewestFirst | app/api/calls/route.ts:79-83 | a window holds only stored rows and keeps the newest-first order |
| CallsApi.PagesTile | app/api/calls/route.ts:75-83 | pages 1..n read in order give the first n·limit rows, none skipped or repeated |
| CallsApi.Get | app/api/calls/route.ts:43-91 | the handler answers as `GetResult` says |
| CallsApi.GetResult | app/api/calls/route.ts:43-91 | the answer is 404 `Appel non trouvé` exactly for an id no call has, 500 `Erreur serveur` exactly for a listing whose offset `(page − 1)·limit` is negative, and 200 otherwise |
| CallsApi.GetKnownIdAnswersRecord | app/api/calls/route.ts:59-72 | a known id answers 200 with the stored record, merged with Twilio's details exactly when the SID is set and Twilio answers, unchanged otherwise |
| CallsApi.PageOfNewestFirst | app/api/calls/route.ts:75-83 | a page of the calls holds at most `limit` stored calls, newest first |
| CallsApi.ListAnswersPage | app/api/calls/route.ts:75-85 | a listing answers 200 with page `page` of the calls, offset `(page − 1)·limit` |
| CallsApi.ListIsPageOfNewestFirst | app/api/calls/route.ts:75-85 | a valid listing answers at most `limit` stored calls, newest first, the page of the whole table |
| CallsApi.ListDefaultsToTenNewest | app/api/calls/route.ts:75-76 | with no parameters, page 1 and limit 10: the ten newest calls |
| CallsApi.ListWithoutLimit | app/api/calls/route.ts:75-85 | a negative limit puts no bound on the listing: every call from the offset on, newest first |
| CallsApi.FirstPageWithoutLimitListsAll | app/api/calls/route.ts:75-85 | a negative limit on the first page lists every stored call, newest first |
| CallsApi.Post | app/api/calls/route.ts:96-128 | the handler answers and leaves the store as `PostResult` says |
| CallsApi.PostResult | app/api/calls/route.ts:96-128 | 400 exactly when a parameter is missing; 201 with the stored row appended, or 400/500 with no row written; entries are never touched |
| CallsApi.PostValidatesFirst | app/api/calls/route.ts:101-106 | 400 exactly when `to`, `from` or `callbackUrl` is missing or empty, with the store unchanged and no effect from Twilio |
| CallsApi.PostStoresCall | app/api/calls/route.ts:109-123 | a created call is stored as one new row with the requested numbers and Twilio's SID, status and direction, and answered 201 with that row |
| CallsApi.PostKeepsWellFormed | app/api/calls/route.ts:112-121 | whatever happens, `POST` keeps the constraints and never alters a stored row or entry |
| CallsApi.Put | app/api/calls/route.ts:133-167 | the handler answers and leaves the store as `PutResult` says |
| CallsApi.PutResult | app/api/calls/route.ts:133-167 | 400 exactly without a SID and 404 exactly for an unknown SID, both writing nothing; otherwise 200 with the row under that SID; entries and the id counter are never touched |
| CallsApi.PutRejects | app/api/calls/route.ts:138-149 | no SID answers 400, an unknown SID 404, neither writes anything; a known SID answers 200 |
| CallsApi.PutAnswersMergedRow | app/api/calls/route.ts:152-162 | the answer is the call's row with status and transcript overwritten by the non-empty values given and kept otherwise |
| CallsApi.PutChangesOnlyThatRow | app/api/calls/route.ts:152-160 | the stored row becomes the answered row; no other row or entry changes |
| CallsApi.MergeIsStable | app/api/calls/route.ts:155-156 | merging a body into a row that already holds its values changes nothing |
| CallsApi.PutIsIdempotent | app/api/calls/route.ts:133-167 | the same `PUT` twice at the same time leaves the store and the answer as once |
| CallsApi.RepeatedPutIsNoop | app/api/calls/route.ts:143-162 | a `PUT` that finds the row already merged leaves the store alone |
| CallTranscription.GroupLines | components/calls/CallTranscription.tsx:20-30 | the loop over the lines computes the reduce |
| CallTranscription.ParseTranscript | components/calls/CallTranscription.tsx:17-30 | the component's parse computes `Messages` |
| CallTranscription.NonBlankDropsBlank | components/calls/CallTranscription.tsx:17 | the filter keeps no blank or whitespace-only line |
| CallTranscription.SpeakerLinesAreKept | components/calls/CallTranscription.tsx:17 | the filter keeps a run of speaker lines whole |
| CallTranscription.NewMessageSplitsAtFirstColon | components/calls/CallTranscription.tsx:22-23 | the content is everything after the first `:`, later colons kept, trimmed |
| CallTranscription.SpeakerLineRole | components/calls/CallTranscription.tsx:21-24 | a speaker line opens a message with its speaker's name and the trimmed rest of the line |
| CallTranscription.StepRoles | components/calls/CallTranscription.tsx:21-28 | a step adds one role exactly for a speaker line |
| CallTranscription.FoldRoles | components/calls/CallTranscription.tsx:20-30 | the reduce adds one message per speaker line, in order, and keeps the roles already there |
| CallTranscription.GroupedFollowSpeakerLines | components/calls/CallTranscription.tsx:20-30 | as many messages as speaker lines, in line order, each `Agent` or `Client` |
| CallTranscription.Messages | components/calls/CallTranscription.tsx:17-30 | the messages of a transcript are one per speaker line of its kept lines, in line order, each `Agent` or `Client` |
| CallTranscription.SpeakerRolesAreNames | components/calls/CallTranscription.tsx:21-24 | no role other than `Agent` or `Client` is produced |
| CallTranscription.LeadingLinesAreDropped | components/calls/CallTranscription.tsx:25 | lines before the first speaker line are dropped |
| CallTranscription.ContinuationLine | components/calls/CallTranscription.tsx:25-28 | a non-speaker line after a message is appended to the last one as newline plus trimmed line, and creates no message |
| CallTranscription.IndentedSpeakerIsNotSpeaker | components/calls/CallTranscription.tsx:21 | the prefix test is on the untrimmed line, so an indented `Agent:` is not a speaker line |
| CallTranscription.FoldSpeakerLines | components/calls/CallTranscription.tsx:20-24 | lines that are all speaker lines each open one message |
| CallTranscription.SpeakerLineIsNotBlank | components/calls/CallTranscription.tsx:17 | a speaker line survives the blank-line filter |
| CallTranscription.EmptyTranscriptHasNoMessages | components/calls/CallTranscription.tsx:17-30 | the empty transcript shows no message |
| CallTranscription.TrimFlattenedHistory | components/calls/CallTranscription.tsx:17 | for a non-empty history in which no turn's text holds a line break, `trim().split('\n')` of the flattened history gives one line per turn |
| CallTranscription.SummaryLineReadBack | lib/ai-agent.ts:165 | a summary line read back gives its speaker name and the trimmed content |
| CallTranscription.ParseFlattenedHistory | components/calls/CallTranscription.tsx:17-30 | parsing a history flattened as for the summary gives one message per turn, in order, `Client` for the caller and `Agent` otherwise, content trimmed, provided no content holds a line break |
| CallTranscription.NonEmptyHistoryReadsBack | components/calls/CallTranscription.tsx:17-30 | a non-empty flattened history parses to the messages its lines open |
| JsString.Trim | components/calls/CallTranscription.tsx:17 | `trim` keeps no whitespace at either end and is empty exactly for an all-whitespace string |
| JsString.Split | components/calls/CallTranscription.tsx:17 | `split` gives at least one piece, none holding the separator, that join back to the input |
| JsString.SplitJoin | components/calls/CallTranscription.tsx:22-23 | splitting a join of separator-free pieces gives the pieces back |
| JsString.PadStart | components/calls/CallsTable.tsx:191 | `padStart` keeps the string as suffix after fill characters, up to the width |
| CallsTable.TruncatedRemainder | components/calls/CallsTable.tsx:190 | JavaScript's `%` takes the sign of the dividend |
| CallsTable.SecondsAreTwoDigits | components/calls/CallsTable.tsx:189-191 | the seconds part is exactly two digits worth `s mod 60` |
| CallsTable.FormattedDigits | components/calls/CallsTable.tsx:188-192 | the text of a non-negative count is its minutes in decimal, a colon, and its seconds modulo 60 as exactly two digits |
| CallsTable.FormatDurationParts | components/calls/CallsTable.tsx:188-192 | `formatDuration(s)` is ⌊s/60⌋, a colon, then the padded seconds |
| CallsTable.FormatDuration | components/calls/CallsTable.tsx:188-192 | a non-negative count reads back from its text: minutes·60 plus the two-digit seconds give the count |
| CallsTable.FormatDurationInjective | components/calls/CallsTable.tsx:188-192 | distinct durations display differently |
| CallsTable.FormatShortDuration | components/calls/CallsTable.tsx:188-192 | a duration under ten minutes shows its minute digit, a colon and the padded seconds |
| CallsTable.SampleDurations | components/calls/CallsTable.tsx:51-91 | the sample durations 125, 347, 12 and 0 show as `2:05`, `5:47`, `0:12` and `0:00` |
| CallsTable.NegativeDuration | components/calls/CallsTable.tsx:188-192 | a negative count is not rejected: -5 shows as `-1:-5` |
| CallsTable.DurationCell | components/calls/CallsTable.tsx:141 | the cell is `-` exactly for a null duration |
| CallsTable.DurationCellReadBack | components/calls/CallsTable.tsx:141 | a shown duration reads back as the call's |
| CallsTable.StatusBadge | components/calls/CallsTable.tsx:198-233 | the five known statuses map to `En cours`/default, `Terminé`/secondary, `Échoué`/destructive, `Occupé`/outline, `Sans réponse`/outline; any other status shows itself, outlined |
| CallsTable.BadgeStatusRoundTrip | components/calls/CallsTable.tsx:206-229 | a badge gives back its status, except for a raw status spelled like an outlined label |
| CallsTable.OutlinedLabelsCollide | components/calls/CallsTable.tsx:219-229 | `Occupé` and `Sans réponse` as raw statuses show the same badges as `busy` and `no-answer` |
| CallsTable.EndedCallNeverInProgress | components/calls/CallsTable.tsx:206-229 | a terminal status never shows the in-progress badge |
| CallsTable.DirectionLabel | components/calls/CallsTable.tsx:123-133 | `Sortant` exactly for `outbound`, `Entrant` for every other value |
| CallsTable.RowOf | components/calls/CallsTable.tsx:111-142 | a row shows the call's parties, `-` exactly for a null duration, `Sortant` exactly for an outbound call |
| CallsTable.RowReadBack | components/calls/CallsTable.tsx:111-142 | the row's badge and duration give back the call's status and duration |
| CallDetails.AgentLine | components/calls/CallDetails.tsx:103-111 | the agent line appears exactly for a non-empty agent id, showing it |
| CallDetails.CardOf | components/calls/CallDetails.tsx:44-120 | the card shows the call's parties and SID, `Sortant` exactly for outbound, the agent exactly when set |
| CallDetails.CardAgreesWithRow | components/calls/CallDetails.tsx:38-72 | the card's direction, badge, parties and duration are the table's for the same call |
| CallDetails.CardReadBack | components/calls/CallDetails.tsx:99 | the duration is always formatted, never `-`, and reads back as the call's; the badge gives back the status |

## Left out

- The OpenAI calls (lib/ai-agent.ts:111-116, 171-176) are network I/O. They are oracle parameters returning `Generated(content)` or `GenerationFailed`. Model name, temperature and `max_tokens` are backend tuning with no observable contract.
- The Twilio client wrappers `initiateCall`, `getCallDetails`, `endCall` and `startRecording` (lib/twilio.ts:17-110, 129-137) are foreign API calls. The calls route takes the first two as oracle parameters.
- TwimlRoute.Step: an absent `CallSid` is modelled as `""`. The handler passes `null` (app/api/twiml/route.ts:52, 61, 78) to inserts that the NOT NULL constraints on `calls.twilio_sid` and `call_conversations.call_sid` (lib/db/schema.ts:38, 55) refuse, and the helpers swallow the errors. So where the handler stores nothing, the model stores a row with SID `""`, the greeting entry under it, and on a terminal status the summary as its transcript. The model also keys that context `""` where the handler keys it `"null"`.
- The catch branch of the webhook (app/api/twiml/route.ts:186-198) is left out, and so are the exceptions the helpers log and swallow, apart from the refused inserts. Neither the store nor the agent throws in the model, so the webhook never fails. The calls route's catch branches are modelled only for the causes the model has: Twilio throwing, a duplicate SID on insert, and a negative `OFFSET`.
- CallsApi.GetResult: the omission of a negative `LIMIT` and of a zero `OFFSET` is drizzle-orm's PostgreSQL query builder, which is not part of this model; the model states its behaviour as a fact.
- Request plumbing is left out: form and JSON parsing, `parseInt` of query strings (`NaN`, fractions) and response headers. Inputs arrive parsed, and an absent field is `""` or `None`. Non-string JSON values for body fields are not modelled.
- `createId()` is a counter rather than a random cuid.
- `new Date()` is a natural-number `now` parameter. Rows with equal `createdAt` are ordered by insertion here, whereas the database leaves that order unspecified.
- Locale date formatting with `toLocaleString('fr-FR')` (CallsTable.tsx:114-120, CallDetails.tsx:28-35) is library and timezone behaviour.
- The JSX markup and the icons are not modelled. The table's sample data is used only for its durations.
- Concurrency is not modelled. Overlapping webhook deliveries share the context map without synchronisation, and the model handles one event at a time.
- The columns the core never writes (`duration`, `recordingUrl`, `agentId`, `userId`) are not in `CallRecord`. The `ai_agents` table is not modelled either.
- CallsTable.FormatDuration: durations are integers. JavaScript's `Math.floor` and `%` on fractional seconds are not modelled.
- CallDetails: its `formatDuration` and `CallStatusBadge` are textual copies of the table's. The card uses the `CallsTable` definitions instead of separate copies, so their agreement holds by construction. `CardAgreesWithRow` states the cell-by-cell agreement.
- AiAgent.ConversationContext: the optional `customerName` and `previousInteractions` fields are never set by the core and are left out.
- TwimlRoute.RunKeepsConsistent and TwimlRoute.UserTurnsCountSpeechEvents give every event of a run the same `now` and the same backend functions. Varying clocks and backends are not modelled.

# Eduvane AI: orchestrator, chat session and server helpers in Dafny

This project models the sequential logic of the Eduvane AI assistant. The assistant
reads a student's work or a typed message and answers as a tutor.

- **Orchestrator** (`orchestrator.dfy`, module `Orchestrator`). This is
  `OrchestratorService.processInput` written as one function. It maps the session
  state, the input (an optional file and a text), the guest flag and everything the
  turn learns from outside (`Environment`) to a `Step`. A `Step` holds:
  - the new state;
  - the ordered events the generator yields;
  - the remote calls made;
  - the versions of the submission record;
  - the submission handed to `saveSubmission`.

  A text-only turn is either answered locally or sent to the learning-task chat. A
  file goes through the analysis pipeline: perceive, route, interpret, reason. The
  pipeline moves a submission from CREATED to PROCESSING, then to COMPLETED or ERROR.
  `resetSession` is `ResetSession`.
- **Text classifiers** (`classifier.dfy`, module `Classifier`). These are
  `extractIdentity`, `parseSimpleRole`, `isTaskIntent` and `isConversationalIntent`.
  The name and role regular expressions are modelled exactly: leftmost search, lazy
  capture with its look-ahead, and `\s` backtracking. The string primitives they use
  follow JavaScript (`text.dfy`, module `Text`).
- **Chat session** (`chat.dfy`, module `Chat`). `RemoteChatSession` keeps the
  history on the client. A send either fails before streaming or yields the
  non-empty chunks. When the stream finishes, normally or by error, exactly one
  user/model pair is recorded.
- **Gemini service** (`gemini.dfy`, module `Gemini`). `GeminiService` covers:
  - the lazy singleton session;
  - the `perceive` and `interpret` fallbacks;
  - the `reason` result mapping and its single error message;
  - `injectAnalysisContext`, which swallows failures;
  - `streamLearningTask`.
- **Server helpers** (`server.dfy`, module `Server`). These are the pure parts of
  `server.ts`:
  - the per-layer key check;
  - the choice of model by MIME type and by mode;
  - the order of the reasoning request parts;
  - the markdown-fence cleanup of JSON text.

Each remote stage is an abstract reply: `Gemini.Reply<T>` is `Failed` or
`Replied(body)`. The chat transport is a `Chat.Response`: unreachable, not ok, no
body, or a body with decoded chunks and an optional read error. Random ids and clock
readings are fields of the `Environment`. So is the stored profile, which
`getUserProfile` would return.

The orchestrator's fixed reply texts are named by `Orchestrator.Line` values inside
the events. They are spelled out once, by `Orchestrator.Say`, and match the source
literals. The events therefore record which reply was chosen, and the text is one
function application away. `Orchestrator.ContinuityText` shows that the continuity
reply, which the source builds from an acknowledgement, has the same text as
`Say` gives.

Behaviour of the code worth knowing:

- Task intent is decided by the keyword test of lines 294-301 alone.
- An interpretation without `ownership` makes `reason` fail before it sends any
  request, because the prompt reads `context.ownership.type`
  (services/geminiService.ts:190). An empty model reply becomes `{}` on the server
  (server.ts:102), so this happens in practice, and the submission then ends in
  ERROR (`Gemini.Reason`, `Orchestrator.EmptyInterpretationAborts`).
- A feedback item without `type` makes the summary template throw before its `try`
  (services/geminiService.ts:270). No chat session is created and nothing is sent;
  the diagnosis itself is unaffected, since `reason` does not await the injection
  (`Gemini.InjectAnalysisContext`).
- The "I'm listening" fallback (line 112) cannot be reached from any reachable state.
  A pending role question is always cleared at lines 72-84 before line 106 looks at
  it. `Orchestrator.RespondKeeps` proves this for every well-formed state.
- A user who answers the role question with only a name is asked again.
  `Orchestrator.RoleQuestionRepeats` states this.
- A role found by `extractIdentity` confirms the role at line 65. This happens before
  the pending-question check at line 72, so `roleAsked` stays set on that turn
  (`Orchestrator.PendingRoleQuestion`).
- The learning-task call at line 215 passes no role. The message prefix is therefore
  always `[Active User Role: Ambiguous]`, even when the role is known
  (`Orchestrator.TaskMessage`, `Orchestrator.TaskTurn`).

## Model

| member | source | states |
|---|---|---|
| Text.FirstWord | services/orchestratorService.ts:91 | `split(' ')[0]` is the prefix before the first space: it has no space and is followed by one, or it is the whole text |
| Classifier.NameCapture | services/orchestratorService.ts:267 | a capture comes from a match of the expression: an introduction phrase starting a token, one or more white-space characters, then the capture, a non-empty run of ASCII letters and white space that ends the text or is followed by `.`, `!` or `,` |
| Classifier.PresentIsFound | services/orchestratorService.ts:267 | conversely, whenever the text holds a match the search finds one, and the match it takes starts no later than any other (leftmost-first) |
| Classifier.IntroducedName | services/orchestratorService.ts:267 | a text that starts with an introduction phrase in any letter case, one white-space character and a run of letters and white space beginning with a letter, ending the text or followed by `.`, `!` or `,`, has exactly that run as its capture |
| Classifier.IntroducedNameAlone | services/orchestratorService.ts:267 | "I'm Ada", "my name is Ada Lovelace." and the like capture exactly the name |
| Classifier.ExtractIdentity | services/orchestratorService.ts:261-285 | a name is reported iff the regular expression captures one whose trimmed, lower-cased form is not black-listed, and the name is that capture title-cased; the role is Teacher iff a teacher word starts at a token start, Student iff no teacher word does and a student word does |
| Classifier.TitleCaseChars | services/orchestratorService.ts:272 | split-map-join title-casing upper-cases exactly the characters at the start or after a space and lower-cases the rest |
| Classifier.TitleCaseLower | services/orchestratorService.ts:270-273 | title-casing changes only case, so the black-list comparison sees the same text |
| Classifier.AcceptedNameNotBlacklisted | services/orchestratorService.ts:268-273 | an accepted name, lower-cased, is never a black-listed phrase |
| Classifier.HasWordFrom | services/orchestratorService.ts:278-281 | the role search succeeds iff some token start at or after the position begins one of the words, ignoring case |
| Classifier.RoleWordIsContained | services/orchestratorService.ts:278-290 | a role word found at a token start is also contained in the lower-cased text, as `parseSimpleRole` tests it |
| Classifier.ParseSimpleRole | services/orchestratorService.ts:287-292 | Teacher iff the lower-cased text contains "teacher" or "educator"; no role iff it contains none of the four words |
| Classifier.TaskIntentIgnoresTrim | services/orchestratorService.ts:294-301 | a text is a task iff its lower-cased form contains a task keyword anywhere; the trim is immaterial |
| Classifier.StripNonWord | services/orchestratorService.ts:305 | removing `[^\w\s]` leaves only word and white-space characters, and leaves something whenever the text has any |
| Classifier.GreetingWithPunctuation | services/orchestratorService.ts:303-313 | a greeting followed only by punctuation is conversational, since punctuation is stripped before the greeting comparison |
| Classifier.StripNonWordKeeps | services/orchestratorService.ts:305 | stripping keeps a run of word and white-space characters and drops the punctuation after it |
| Classifier.StripNonWordAppend | services/orchestratorService.ts:305 | stripping works one character at a time: it distributes over concatenation |
| Classifier.StripNonWordSnoc | services/orchestratorService.ts:305 | a character is kept exactly when it is a word character or white space |
| Classifier.ClassifiersIgnoreCase | services/orchestratorService.ts:287-318 | the task, conversational and bare-role tests give the same answer for a text and its lower-cased form |
| Chat.NewSession | services/geminiService.ts:23-31 | a new session has an empty history and the given instruction |
| Chat.NonEmpty | services/geminiService.ts:71-74 | the yielded chunks are never empty and concatenate to the same text as all decoded chunks |
| Chat.NonEmptyAppend | services/geminiService.ts:71-74 | the chunks yielded from two runs of chunks are those of the first run followed by those of the second |
| Chat.NonEmptyOne | services/geminiService.ts:71-74 | a single chunk is yielded exactly when it is not empty; with `NonEmptyAppend` this fixes the yielded chunks as the non-empty ones in order |
| Chat.NonEmptyKeepsAll | services/geminiService.ts:71-74 | chunks that are all non-empty are all yielded unchanged |
| Chat.Generate | services/geminiService.ts:60-81 | the generator loop yields exactly the non-empty chunks and accumulates their concatenation as the reply text |
| Chat.Record | services/geminiService.ts:76-80 | recording keeps the old history as a prefix and appends the user message, then the model reply |
| Chat.SendMessageStream | services/geminiService.ts:33-89 | the payload carries the history before the send and the message separately; a non-ok or body-less response streams nothing; a stream yields exactly the non-empty decoded chunks and records one pair whose reply is their concatenation |
| Chat.SendMessage | services/geminiService.ts:91-99 | succeeds iff the stream starts and ends normally, returning the concatenation of the streamed chunks, with the session the stream left |
| Chat.HistoryGrowth | services/geminiService.ts:33-89 | a send that fails before streaming leaves the history; one that starts grows it by exactly the user/model pair, even when the stream breaks off |
| Chat.ReplyIsRecorded | services/geminiService.ts:91-99 | the reply `sendMessage` returns is the model turn it recorded |
| Chat.AppendOnly | services/geminiService.ts:24-80 | across any run of sends the history only grows: the old history stays a prefix |
| Gemini.GetOrCreateSession | services/geminiService.ts:111-116 | returns the held session if any, otherwise a new empty one that becomes held |
| Gemini.CreateQuestionSession | services/geminiService.ts:118-120 | always a new empty session, which the service does not hold |
| Gemini.EndSession | services/geminiService.ts:122-124 | the service holds no session afterwards |
| Gemini.SameSessionUntilEnd | services/geminiService.ts:111-116 | asking twice gives the same session and changes nothing |
| Gemini.FreshAfterEnd | services/geminiService.ts:111-124 | after `endSession` the next session is new, with empty history and a different identity |
| Gemini.QuestionSessionIsNew | services/geminiService.ts:118-120 | a question session is never the ongoing session, neither before nor after |
| Gemini.Perceive | services/geminiService.ts:128-147 | fails iff the call failed, always with "Unable to read the document."; a missing or empty text field reads as "" |
| Gemini.Interpret | services/geminiService.ts:149-174 | never fails: a failed call degrades to General / Unknown / explanation / student_direct; a reply is passed on as it is, missing fields included |
| Gemini.InterpretDiagnosable | services/geminiService.ts:149-190 | the interpretation can be diagnosed iff the call failed or the reply has an ownership; an empty reply cannot |
| Gemini.ArrayOrEmpty | services/geminiService.ts:231-233 | a field that is not an array becomes the empty sequence |
| Gemini.MapReasoning | services/geminiService.ts:225-239 | id and timestamp are the fresh ones; subject, topic and ownership come from the context; the raw text is the extracted text; a missing score is the "-"/"Pending" placeholder; non-array lists are empty; handwriting and stability are passed through |
| Gemini.Reason | services/geminiService.ts:176-249 | a result comes iff the context has an ownership and the reply arrived; every failure gives the one diagnosis error and touches no session; on success the summary goes into the ongoing session |
| Gemini.FallbackContextReasons | services/geminiService.ts:165-249 | after a failed interpretation the diagnosis still succeeds whenever reasoning replies, as General / Unknown / student_direct |
| Gemini.FeedbackLines | services/geminiService.ts:270 | one `- KIND: text` line per feedback item, in order |
| Gemini.ContextPayload | services/geminiService.ts:263-284 | the summary can be built iff every feedback item has a type |
| Gemini.PayloadMentions | services/geminiService.ts:263-284 | the summary contains the `Subject: <subject> (<topic>).` line and every item's `- KIND: text` line |
| Gemini.InjectAnalysisContext | services/geminiService.ts:259-292 | an item without a type leaves the service as it was; otherwise the summary goes through the ongoing session, created if needed; a started stream records the summary and the reply; any later failure is swallowed |
| Gemini.StreamLearningTask | services/geminiService.ts:253-257 | the message is prefixed with the role label and streamed through the ongoing session; the history grows by the prefixed message and the full reply iff the stream starts |
| Orchestrator.Initialize | services/orchestratorService.ts:33-44 | initialisation happens once; a signed-in user's stored profile seeds name and role, confirming the role iff the profile has one; a guest's session and one without a profile only become initialised |
| Orchestrator.Merge | services/orchestratorService.ts:61-66 | a detected non-empty name replaces the known one; a detected role replaces the known role and confirms it; nothing else changes |
| Orchestrator.SettleQuestion | services/orchestratorService.ts:71-84 | a pending question is cleared on every conversational turn, and a bare role answer also sets and confirms the role |
| Orchestrator.Converse | services/orchestratorService.ts:86-128 | the continuity reply is chosen iff the assistant has introduced itself and the text brought no name or role; otherwise the pitch follows the role, and with the role unknown the question is asked only when not yet asked, which sets the flag; in a well-formed state the fallback is never chosen |
| Orchestrator.Say | services/orchestratorService.ts:95-125 | every fixed text is non-empty, and a reply opens with "Nice to meet you" only when it asks for the role |
| Orchestrator.ReplyAddressesUser | services/orchestratorService.ts:91-112 | a reply to a user whose name is known contains ", " and the first name |
| Orchestrator.AnalysisFollowUpsDiffer | services/orchestratorService.ts:192-199 | the teacher, student and neutral analysis follow-ups are three different texts |
| Orchestrator.TaskFollowUpsDiffer | services/orchestratorService.ts:227-229 | the task follow-up is the answer-key offer iff the role is Teacher |
| Orchestrator.ContinuityText | services/orchestratorService.ts:122-125 | the continuity reply is "I'm listening, <first name>." or "I'm listening.", followed by " What would you like to work on?" |
| Orchestrator.Failure | services/orchestratorService.ts:206 | the error event shows the error's message, or "Analysis pipeline failed." when it has none |
| Orchestrator.ChunkEvents | services/orchestratorService.ts:217-222 | exactly one chunk event per non-empty chunk, in order, each passing that chunk's text on |
| Orchestrator.ChunkEventsText | services/orchestratorService.ts:217-222 | the chunk events spell out exactly the concatenated chunks |
| Orchestrator.StreamEvents | services/orchestratorService.ts:217-235 | a started stream gives one chunk event per non-empty chunk in order and nothing else before TASK_COMPLETE and the role's follow-up, or before a single ERROR if it broke off |
| Orchestrator.TaskTurn | services/orchestratorService.ts:212-237 | one chat call with the "Ambiguous" prefix; a failed send gives one ERROR; a started stream gives one chunk event per non-empty received chunk, in order, then TASK_COMPLETE and the follow-up or a single ERROR, and records the same text as the model's turn in the same session |
| Orchestrator.Answer | services/orchestratorService.ts:68-128 | a conversational turn yields one reply chunk then TASK_COMPLETE, calls nothing and keeps the chat session |
| Orchestrator.Respond | services/orchestratorService.ts:52-133 | a text is answered locally iff `!isTask && (isConversational \|\| name \|\| role \|\| roleAsked)`, and then calls nothing; otherwise it goes to the learning-task chat after the identity merge; either way the turn ends in a terminal event |
| Orchestrator.RespondKeeps | services/orchestratorService.ts:61-128 | a detected name or role is kept; a confirmed role stays confirmed; role confirmation matches role presence afterwards; the fallback reply is never sent |
| Orchestrator.PendingRoleQuestion | services/orchestratorService.ts:63-115 | asking the question leaves it pending with no role; a bare answer to a pending question sets the role and clears the question; any other answer clears it unless it is asked again; a detected role leaves the flag set |
| Orchestrator.RoleQuestionRepeats | services/orchestratorService.ts:72-109 | answering a pending role question with only a name makes the assistant ask again, with the name kept |
| Orchestrator.RouteMode | services/orchestratorService.ts:159-161 | the fast path is taken iff the extracted text is shorter than 800 |
| Orchestrator.Analyse | services/orchestratorService.ts:153-176 | the analysis completes iff the file is read, perception replies, the interpretation has an ownership and reasoning replies; the stages are called in order with their inputs, including the text as the user's instruction; reasoning is not requested without an ownership; each failure carries its stage's message, or none for an unreadable file |
| Orchestrator.Injected | services/geminiService.ts:259-292 | the summary call is made iff every feedback item has a type |
| Orchestrator.Conclude | services/orchestratorService.ts:166-176 | without an ownership the diagnosis error comes with no reasoning call; otherwise reasoning fails with that error, or succeeds with the summary injected into the same chat session |
| Orchestrator.AnalysisRecordsStages | services/orchestratorService.ts:153-173 | a completed analysis records the extracted text, the interpretation's subject, topic and ownership, the fresh id and time, and routes by the extracted text's length, before the submission id replaces the fresh one |
| Orchestrator.EmptyInterpretationAborts | services/orchestratorService.ts:163-173 | an empty interpretation stops the pipeline after perceive and interpret with the diagnosis error |
| Orchestrator.Submit | services/orchestratorService.ts:139-209 | the submission goes CREATED, PROCESSING, then COMPLETED iff the stages succeed, else ERROR with the error's message; the result carries the submission id; it is saved only on success and only for a signed-in user; the events come in the source's order for either outcome |
| Orchestrator.Turn | services/orchestratorService.ts:31-238 | every turn leaves the state initialised and well formed; a confirmed role and the introduction are never lost; a turn yields events iff there is input, and ends in a terminal event; only file turns touch submissions; the chat session stays the same and only grows |
| Orchestrator.ProfileReadOnce | services/orchestratorService.ts:33-44 | once initialised, or for a guest, the stored profile has no influence on the turn |
| Orchestrator.ProcessInput | services/orchestratorService.ts:31-238 | a file is completed iff every stage succeeds and saved iff also not a guest; a text with a task keyword is sent to the chat with the "Ambiguous" prefix; a name found in a text is kept |
| Orchestrator.ResetSession | services/orchestratorService.ts:240-248 | the state returns to all-false and uninitialised, and the chat session is dropped |
| Orchestrator.ResetOpensNewChat | services/orchestratorService.ts:240-248 | after a reset the next learning task runs in a new chat session whose history is only that exchange |
| Server.GetClient | server.ts:14-20 | succeeds iff the layer's variable is set and non-empty, returning its value; otherwise a configuration error that names the layer |
| Server.KeyNamesDistinct | server.ts:15 | every layer reads its own environment variable |
| Server.PerceptionModel | server.ts:32 | the flash model iff the MIME type is "application/pdf", else the image model |
| Server.ReasoningModel | server.ts:119 | the flash model iff the mode is "fast", else the pro model |
| Server.ModeSelectsModel | server.ts:115-119 | the fast mode the client sends selects the flash model and the deep mode the pro model |
| Server.ReasoningParts | server.ts:121-124 | the prompt is always the last part; the image part precedes it iff both image and MIME type are non-empty |
| Server.ReasoningPartsRead | server.ts:121-124 | reading the parts back gives the prompt, and the image with its type exactly when both were given and not empty |
| Server.CleanEmpty | server.ts:102 | a missing or empty model text cleans to "{}" |
| Server.RemoveAllFences | server.ts:102 | once every fence is removed none is left, not even one formed by the backticks around a removed fence |
| Server.NoFenceLeft | server.ts:195 | the cleaned text contains no fence |
| Server.CleanIdempotent | server.ts:195 | cleaning a non-empty cleaned text changes nothing |
| Server.LoneFence | server.ts:102 | a text that is a lone fence cleans to "", which a second cleaning would turn into "{}" |

## Left out

- `fileToBase64` (services/orchestratorService.ts:250-257) uses `FileReader` I/O. Its outcome is `Environment.encoding`, which is absent when the reader fails. That failure rejects with an event that has no message.
- `fetch`, Express, the `@google/genai` SDK, `ReadableStream`/`TextDecoder` and `res.write` are transport. Each call is an abstract outcome, and decoded chunks are given as strings.
- `crypto.randomUUID` and `Date.now` are parameters: `submissionId`, `submittedAt`, `draftId`, `analysedAt`.
- `getUserProfile` and `saveSubmission` belong to a persistence service that is not part of this model. The profile is an input, and the save is recorded in `Step.saved`.
- Async-generator suspension, early termination by the consumer and overlapping turns are not modelled. A turn is one function returning its whole event list.
- The context injection that `reason` starts without awaiting it is applied inside the turn, before the turn ends.
- Prompt text is not modelled. This covers `reason`'s prompt (services/geminiService.ts:188-207), the perception instruction (server.ts:39) and the system instructions in `constants.ts`. `Orchestrator.Call` records each call's ingredients instead. The `userRole` that `reason` would print is never passed, so it reads "Unknown".
- Gemini.ContextPayload: the summary follows the template's fields and separators, but not the template's leading indentation. An item text or insight title that is missing would print as `undefined`; the model takes those fields as present.
- JSON parsing and the response schemas of server.ts are not modelled. A reply body is a datatype. The fields the code reads with a fallback, or may find missing, are `Option`s: the interpretation's subject, topic, intent and ownership; an ownership's type and student; a feedback item's type; the stability status and evidence; the reasoning reply's fields, where a list that is not an array is `None`. Every other field is taken as present.
- The server's `/api/chat` and `/api/interpret` plumbing (server.ts:57-109, 206-238) and the port setup are not modelled.
- Server.GetClient: returns the key instead of a client object built from it.
- `toLowerCase`/`toUpperCase` are modelled for ASCII letters only. Other letters keep their case.
- Orchestrator.RouteMode: `length` counts UTF-16 code units, and the model counts characters. The two differ only for characters outside the Basic Multilingual Plane.
- `constants.ts` (configuration) and `App.tsx` (the React view) are outside the core.

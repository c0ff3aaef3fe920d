/** The orchestrator (`OrchestratorService`, services/orchestratorService.ts): per-turn
    routing of user input into a conversational reply, the file-analysis pipeline or
    the learning-task chat, over a small session state. One call of `processInput`
    is one function from the state and the input to the new state and the complete,
    ordered list of events the generator yields.

    The orchestrator's fixed texts are named by `Line` values in the events and
    spelled out once, by `Say`. */
module Orchestrator {
  import opened Types
  import opened Text
  import opened Classifier
  import Chat
  import Gemini

  // ---------------------------------------------------------------------------
  // Data model
  // ---------------------------------------------------------------------------

  datatype SessionState = SessionState(
    hasIntroducedSelf: bool,
    roleConfirmed: bool,
    userRole: Option<Role>,
    userName: Option<string>,
    roleAsked: bool,
    initialized: bool)

  /** The state of a new orchestrator and after `resetSession`. */
  const Fresh: SessionState := SessionState(false, false, None, None, false, false)

  /** The states a session can reach: before initialisation nothing is set, and a
      role is confirmed exactly when one is known. */
  predicate Wf(s: SessionState) {
    && (!s.initialized ==> s == Fresh)
    && (s.roleConfirmed <==> s.userRole.Some?)
  }

  /** The stored profile `getUserProfile` returns. */
  datatype Profile = Profile(name: Option<string>, role: Option<Role>)

  datatype FileInput = FileInput(name: string, mimeType: string)

  /** `UnifiedInput`; an absent text is the empty string, which is falsy in the same way. */
  datatype UnifiedInput = UnifiedInput(file: Option<FileInput>, text: string)

  datatype Status = Created | Processing | Completed | Error

  datatype Submission = Submission(
    id: string,
    timestamp: int,
    status: Status,
    fileName: string,
    result: Option<Gemini.AnalysisResult>,
    error: Option<string>)

  /** The `AnalysisPhase` values the orchestrator reports. */
  datatype Phase = Processing | Complete | Error

  /** The conversational replies. */
  datatype Pitch = TeacherPitch | StudentPitch | RoleQuestion | Listening | Continuity

  /** The orchestrator's fixed texts. */
  datatype Line =
    | Reply(pitch: Pitch, userName: Option<string>)
    | AnalysisFollowUp(role: Option<Role>)
    | TaskFollowUp(role: Option<Role>)
    | TaskFailed
    | PipelineFailed

  /** The text an event carries: passed on from elsewhere, or a fixed line. */
  datatype Content = Verbatim(text: string) | Fixed(line: Line)

  datatype Event =
    | StreamChunk(content: Content)
    | PhaseUpdate(phase: Phase)
    | SubmissionComplete(submission: Submission)
    | FollowUp(line: Line)
    | TaskComplete
    | Error(content: Content)

  /** A remote call issued during a turn, in the order issued. `instruction` is the
      text that came with the file (empty when none did). `InjectCall` is the
      analysis summary sent into the chat session, whose message is
      `Gemini.ContextPayload(result)`; it is made only when that summary can be built. */
  datatype Call =
    | PerceiveCall(image: string, mimeType: string)
    | InterpretCall(text: string)
    | ReasonCall(mode: Mode, image: string, mimeType: string, text: string, instruction: string)
    | ChatCall(message: string)
    | InjectCall(result: Gemini.AnalysisResult)

  /** Everything a turn learns from outside: the stored profile, the submission's
      random id and clock reading, the file encoding (absent when the reader fails),
      the replies of the remote stages, and what the chat transport does with the
      context summary and with a learning-task message. */
  datatype Environment = Environment(
    profile: Option<Profile>,
    submissionId: string,
    submittedAt: int,
    encoding: Option<string>,
    perception: Gemini.Reply<Gemini.PerceptionBody>,
    interpretation: Gemini.Reply<Gemini.Interpretation>,
    reasoning: Gemini.Reply<Gemini.ReasoningBody>,
    draftId: string,
    analysedAt: int,
    injection: Chat.Response,
    chat: Chat.Response)

  /** The orchestrator together with the service whose chat session it drives. */
  datatype Orchestrator = Orchestrator(state: SessionState, service: Gemini.Service)

  const Start: Orchestrator := Orchestrator(Fresh, Gemini.Initial)

  /** One turn: the orchestrator after it, the events in order, the remote calls in
      order, the successive versions of the turn's submission record, and the
      submission handed to `saveSubmission`, if any. */
  datatype Step = Step(
    after: Orchestrator,
    events: seq<Event>,
    calls: seq<Call>,
    trail: seq<Submission>,
    saved: Option<Submission>)

  // ---------------------------------------------------------------------------
  // The fixed texts
  // ---------------------------------------------------------------------------

  /** `userName.split(' ')[0]`, or `''` when no name is known. */
  function FirstName(userName: Option<string>): string {
    if Truthy(userName) then FirstWord(userName.value) else ""
  }

  /** `nameStr` of line 92. */
  function NameSuffix(userName: Option<string>): string {
    var first := FirstName(userName);
    if first != "" then ", " + first else ""
  }

  /** The words a reply opens with, before the name. */
  function Opening(p: Pitch): (w: string)
    ensures |w| > 0 && (w[0] == 'N' <==> p == RoleQuestion)
  {
    match p
    case TeacherPitch => "Hello"
    case StudentPitch => "Hi"
    case RoleQuestion => "Nice to meet you"
    case Listening => "I'm listening"
    case Continuity => "I'm listening"
  }

  /** The rest of a reply, after the name. */
  function Closing(p: Pitch): string {
    match p
    case TeacherPitch =>
      ". As a teacher, I can help you grade efficiently, "
        + "identify class-wide learning gaps, and generate targeted assessments.\n\n"
        + "Upload a student submission to begin, or describe a topic you need questions for."
    case StudentPitch =>
      ". I'm here to help you strengthen your understanding. "
        + "I can analyze your answers to spot mistakes or generate practice questions "
        + "to help you prepare.\n\nUpload your work when you're ready."
    case RoleQuestion =>
      ". I\U{2019}m Eduvane \U{2014} a smart classroom feedback engine.\n\n"
        + "To help me align my feedback, are you a Teacher or a Student?"
    case Listening =>
      ". You can upload an answer or tell me what you'd like to work on."
    case Continuity =>
      "." + " What would you like to work on?"
  }

  /** A conversational reply: the opening, `, <first name>` when a name is known,
      then the rest. Only the role question starts with an `N`. */
  function PitchText(p: Pitch, userName: Option<string>): (t: string)
    ensures |t| > 0 && (t[0] == 'N' <==> p == RoleQuestion)
  {
    var opening := Opening(p);
    var t := opening + NameSuffix(userName) + Closing(p);
    assert t[0] == opening[0];
    t
  }

  /** Lines 123-125 build the continuity reply from an acknowledgement instead;
      the text is the same. */
  lemma ContinuityText(userName: Option<string>)
    ensures var first := FirstName(userName);
      PitchText(Continuity, userName)
        == (if first != "" then "I'm listening, " + first + "." else "I'm listening.")
           + " What would you like to work on?"
  {
    var first := FirstName(userName);
    if first != "" {
      assert "I'm listening, " == "I'm listening" + ", ";
    }
  }

  const TeacherAnalysisNote := "Analysis complete. I've highlighted the student's key gaps.\n\n"
    + "Would you like to generate a practice set based on these errors?"
  const StudentAnalysisNote := "I've analyzed your work. Check the feedback for tips.\n\n"
    + "Want to try a few practice questions to improve this score?"
  const AnalysisNote := "Analysis complete. You can upload another answer for review,\n"
    + "or I can generate practice questions focused on the areas identified."
  const TeacherTaskNote := "You can copy these for your class. Would you like me to create an answer key?"
  const TaskNote := "Try solving these. You can upload your answers here for me to check."

  /** The text of a fixed line; never empty. A reply opens with an `N` only when it
      asks for the role. */
  function Say(l: Line): (r: string)
    ensures |r| > 0
    ensures l.Reply? ==> (r[0] == 'N' <==> l.pitch == RoleQuestion)
  {
    match l
    case Reply(p, userName) => PitchText(p, userName)
    case AnalysisFollowUp(Some(Teacher)) => TeacherAnalysisNote
    case AnalysisFollowUp(Some(Student)) => StudentAnalysisNote
    case AnalysisFollowUp(None) => AnalysisNote
    case TaskFollowUp(role) => if role == Some(Teacher) then TeacherTaskNote else TaskNote
    case TaskFailed => "I encountered an issue processing that task."
    case PipelineFailed => "Analysis pipeline failed."
  }

  /** A reply addresses a user whose name is known by the first word of it. */
  lemma ReplyAddressesUser(p: Pitch, userName: Option<string>)
    requires FirstName(userName) != ""
    ensures Contains(Say(Reply(p, userName)), ", " + FirstName(userName))
  {
    ContainsInfix(Opening(p), ", " + FirstName(userName), Closing(p));
  }

  /** The three analysis follow-ups are told apart by role. */
  lemma AnalysisFollowUpsDiffer()
    ensures Say(AnalysisFollowUp(Some(Teacher))) != Say(AnalysisFollowUp(None))
    ensures Say(AnalysisFollowUp(Some(Teacher))) != Say(AnalysisFollowUp(Some(Student)))
    ensures Say(AnalysisFollowUp(Some(Student))) != Say(AnalysisFollowUp(None))
  {
  }

  /** The task follow-up offers a teacher an answer key, and anyone else a check of
      their answers. */
  lemma TaskFollowUpsDiffer(role: Option<Role>)
    ensures (Say(TaskFollowUp(role)) == Say(TaskFollowUp(Some(Teacher)))) <==> role == Some(Teacher)
  {
  }

  function ContentText(c: Content): string {
    match c
    case Verbatim(t) => t
    case Fixed(l) => Say(l)
  }

  /** Line 206: the error event of a failed analysis shows the error's message, or a
      fixed text when it has none. */
  function Failure(message: Option<string>): (c: Content)
    ensures ContentText(c) == OrElse(message, Say(PipelineFailed))
    ensures c.Verbatim? ==> c.text != ""
  {
    if Truthy(message) then Verbatim(message.value) else Fixed(PipelineFailed)
  }

  // ---------------------------------------------------------------------------
  // Initialisation and the session state
  // ---------------------------------------------------------------------------

  /** Lines 34-44: on the first call after construction or reset, seed the state
      from the stored profile unless the session is a guest's. */
  function Initialize(s: SessionState, isGuest: bool, profile: Option<Profile>): (r: SessionState)
    ensures r.initialized
    ensures s.initialized ==> r == s
    ensures r.hasIntroducedSelf == s.hasIntroducedSelf && r.roleAsked == s.roleAsked
    ensures !s.initialized && !isGuest && profile.Some? ==>
      r.userRole == profile.value.role && r.userName == profile.value.name
      && (r.roleConfirmed <==> profile.value.role.Some?)
    ensures !s.initialized && (isGuest || profile.None?) ==> r == s.(initialized := true)
    ensures Wf(s) ==> Wf(r)
  {
    if s.initialized then s
    else
      var seeded :=
        if !isGuest && profile.Some? then
          s.(userRole := profile.value.role, userName := profile.value.name,
             roleConfirmed := profile.value.role.Some?)
        else s;
      seeded.(initialized := true)
  }

  /** Lines 62-66: a detected name (when not empty) replaces the known name; a
      detected role replaces the known role and confirms it. */
  function Merge(s: SessionState, id: Identity): (r: SessionState)
    ensures r.userName == (if Truthy(id.name) then id.name else s.userName)
    ensures r.userRole == (if id.role.Some? then id.role else s.userRole)
    ensures r.roleConfirmed == (id.role.Some? || s.roleConfirmed)
    ensures r.hasIntroducedSelf == s.hasIntroducedSelf && r.roleAsked == s.roleAsked
    ensures r.initialized == s.initialized
  {
    var named := if Truthy(id.name) then s.(userName := id.name) else s;
    if id.role.Some? then named.(userRole := id.role, roleConfirmed := true) else named
  }

  /** What the classifiers make of one text (lines 57-59 and 74). */
  datatype Reading = Reading(task: bool, conversational: bool, identity: Identity, answer: Option<Role>)

  function Read(text: string): Reading {
    Reading(IsTaskIntent(text), IsConversationalIntent(text), ExtractIdentity(text), ParseSimpleRole(text))
  }

  /** The guard of line 69: the text is handled as conversation. */
  predicate Conversational(s: SessionState, reading: Reading) {
    !reading.task
    && (reading.conversational || Truthy(reading.identity.name) || reading.identity.role.Some? || s.roleAsked)
  }

  /** Whether the text brought a name or a role. */
  predicate News(reading: Reading) {
    Truthy(reading.identity.name) || reading.identity.role.Some?
  }

  /** Lines 72-84: a pending role question is settled by a bare role answer, and
      abandoned otherwise. */
  function SettleQuestion(s: SessionState, answer: Option<Role>): (r: SessionState)
    ensures r.hasIntroducedSelf == s.hasIntroducedSelf && r.userName == s.userName
    ensures r.initialized == s.initialized
    ensures !(s.roleAsked && !s.roleConfirmed) ==> r == s
    ensures s.roleAsked && !s.roleConfirmed ==> !r.roleAsked
    ensures s.roleAsked && !s.roleConfirmed && answer.Some? ==> r.userRole == answer && r.roleConfirmed
    ensures s.roleAsked && !s.roleConfirmed && answer.None? ==>
      r.userRole == s.userRole && r.roleConfirmed == s.roleConfirmed
  {
    if s.roleAsked && !s.roleConfirmed then
      match answer
      case Some(role) => s.(userRole := Some(role), roleConfirmed := true, roleAsked := false)
      case None => s.(roleAsked := false)
    else s
  }

  /** Lines 71-128: the conversational reply and the state after it. `news` is
      whether this text brought a name or a role. */
  function Converse(s: SessionState, answer: Option<Role>, news: bool): (r: (SessionState, Pitch))
    ensures r.0.hasIntroducedSelf && r.0.initialized == s.initialized
    ensures r.0.userName == s.userName
    ensures s.roleConfirmed ==> r.0.roleConfirmed && r.0.userRole == s.userRole
    ensures r.1 == RoleQuestion ==> r.0.roleAsked && r.0.userRole.None? && !SettleQuestion(s, answer).roleAsked
    ensures r.1 != RoleQuestion ==> r.0.roleAsked == SettleQuestion(s, answer).roleAsked
    ensures r.1 == TeacherPitch <==> (r.1 != Continuity && r.0.userRole == Some(Teacher))
    ensures r.1 == StudentPitch <==> (r.1 != Continuity && r.0.userRole == Some(Student))
    ensures r.1 == Continuity <==> s.hasIntroducedSelf && !news
    ensures (s.roleConfirmed <==> s.userRole.Some?) ==> r.1 != Listening
    ensures (s.roleConfirmed <==> s.userRole.Some?) ==> (r.0.roleConfirmed <==> r.0.userRole.Some?)
  {
    var settled := SettleQuestion(s, answer);
    if !settled.hasIntroducedSelf || news then
      var introduced := settled.(hasIntroducedSelf := true);
      match introduced.userRole
      case Some(Teacher) => (introduced, TeacherPitch)
      case Some(Student) => (introduced, StudentPitch)
      case None =>
        if !introduced.roleAsked then (introduced.(roleAsked := true), RoleQuestion)
        else (introduced, Listening)
    else (settled, Continuity)
  }

  // ---------------------------------------------------------------------------
  // The learning-task chat
  // ---------------------------------------------------------------------------

  /** Line 219: one chunk event per non-empty chunk, in order. */
  function ChunkEvents(chunks: seq<string>): (r: seq<Event>)
    ensures |r| == |Chat.NonEmpty(chunks)|
    ensures forall i :: 0 <= i < |r| ==> r[i] == StreamChunk(Verbatim(Chat.NonEmpty(chunks)[i]))
    ensures forall i :: 0 <= i < |r| ==> r[i].StreamChunk? && r[i].content.Verbatim? && r[i].content.text != ""
    decreases |chunks|
  {
    if |chunks| == 0 then []
    else
      Chat.NonEmptyCons(chunks);
      (if chunks[0] != "" then [StreamChunk(Verbatim(chunks[0]))] else []) + ChunkEvents(chunks[1..])
  }

  /** The model's words a user sees, in order: the passed-on chunk texts. */
  function ModelText(events: seq<Event>): string {
    if |events| == 0 then ""
    else
      (if events[0].StreamChunk? && events[0].content.Verbatim? then events[0].content.text else "")
        + ModelText(events[1..])
  }

  lemma {:induction false} ModelTextAppend(a: seq<Event>, b: seq<Event>)
    ensures ModelText(a + b) == ModelText(a) + ModelText(b)
    decreases |a|
  {
    if |a| == 0 {
      assert a + b == b;
    } else {
      assert (a + b)[0] == a[0];
      assert (a + b)[1..] == a[1..] + b;
      ModelTextAppend(a[1..], b);
    }
  }

  /** Events other than chunks show none of the model's words. */
  lemma {:induction false} Quiet(events: seq<Event>)
    requires forall i :: 0 <= i < |events| ==> !events[i].StreamChunk?
    ensures ModelText(events) == ""
    decreases |events|
  {
    if |events| > 0 {
      Quiet(events[1..]);
    }
  }

  /** The chunk events spell out exactly the concatenated chunks. */
  lemma {:induction false} ChunkEventsText(chunks: seq<string>)
    ensures ModelText(ChunkEvents(chunks)) == Concat(chunks)
    decreases |chunks|
  {
    if |chunks| > 0 {
      var head := ChunkEventsCons(chunks);
      ModelTextAppend(head, ChunkEvents(chunks[1..]));
      ChunkEventsText(chunks[1..]);
      assert [chunks[0]] + chunks[1..] == chunks;
      ConcatPrepend(chunks[0], chunks[1..]);
    }
  }

  /** The chunk events of a list: those of its first chunk, then those of the rest. */
  lemma ChunkEventsCons(chunks: seq<string>) returns (head: seq<Event>)
    requires |chunks| > 0
    ensures ChunkEvents(chunks) == head + ChunkEvents(chunks[1..])
    ensures ModelText(head) == chunks[0]
  {
    if chunks[0] != "" {
      head := [StreamChunk(Verbatim(chunks[0]))];
      assert head[1..] == [];
    } else {
      head := [];
    }
  }

  /** The events a turn can end with. */
  predicate Terminal(e: Event) {
    e == TaskComplete || e.FollowUp? || e.Error? || e == PhaseUpdate(Phase.Error)
  }

  /** The message a learning task is sent as: the role label is always the one for
      an unknown role, because line 215 does not pass the role on. */
  function TaskMessage(text: string): string {
    "[Active User Role: " + Gemini.RoleLabel(None) + "] " + text
  }

  /** The history of the ongoing chat session, as the service would hand it out. */
  function OngoingHistory(g: Gemini.Service): seq<Chat.Message> {
    Gemini.GetOrCreateSession(g).0.history
  }

  /** The ongoing chat session, if there was one, is still the one in use and its
      history has only grown. */
  predicate Continues(g: Gemini.Service, g': Gemini.Service) {
    g.current.Some? ==>
      && g'.current.Some? && g'.current.value.id == g.current.value.id
      && |g'.current.value.history| >= |g.current.value.history|
      && g'.current.value.history[..|g.current.value.history|] == g.current.value.history
  }

  /** Lines 218-234: the events of a stream that started: one chunk event per
      non-empty chunk, then the completion and the follow-up, or an error if the
      stream broke off. They show exactly the streamed text. */
  function StreamEvents(yielded: seq<string>, failure: Option<string>, role: Option<Role>): (r: seq<Event>)
    ensures ModelText(r) == Concat(yielded)
    ensures failure.None? ==>
      |r| >= 2 && r[|r| - 2] == TaskComplete && r[|r| - 1] == FollowUp(TaskFollowUp(role))
    ensures failure.Some? ==> |r| >= 1 && r[|r| - 1] == Event.Error(Fixed(TaskFailed))
    ensures |r| == |Chat.NonEmpty(yielded)| + if failure.Some? then 1 else 2
    ensures forall i :: 0 <= i < |Chat.NonEmpty(yielded)| ==> r[i] == StreamChunk(Verbatim(Chat.NonEmpty(yielded)[i]))
  {
    var chunks := ChunkEvents(yielded);
    var tail := if failure.Some? then [Event.Error(Fixed(TaskFailed))] else [TaskComplete, FollowUp(TaskFollowUp(role))];
    ChunkEventsText(yielded);
    ModelTextAppend(chunks, tail);
    Quiet(tail);
    chunks + tail
  }

  /** Lines 213-236: the learning-task chat. The user sees every chunk in order; the
      session records the same text as the model's turn, whether the stream ends
      normally or breaks off. */
  function TaskTurn(o: Orchestrator, text: string, response: Chat.Response): (r: Step)
    ensures r.after.state == o.state && r.trail == [] && r.saved.None?
    ensures r.calls == [ChatCall(TaskMessage(text))]
    ensures !response.Body? ==> r.events == [Event.Error(Fixed(TaskFailed))]
    ensures response.Body? ==> ModelText(r.events) == Concat(response.chunks)
    ensures response.Body? && response.failure.None? ==>
      |r.events| >= 2 && r.events[|r.events| - 2] == TaskComplete
      && r.events[|r.events| - 1] == FollowUp(TaskFollowUp(o.state.userRole))
    ensures response.Body? && response.failure.Some? ==>
      |r.events| >= 1 && r.events[|r.events| - 1] == Event.Error(Fixed(TaskFailed))
    ensures response.Body? ==>
      |r.events| == |Chat.NonEmpty(response.chunks)| + if response.failure.Some? then 1 else 2
    ensures response.Body? ==> forall i :: 0 <= i < |Chat.NonEmpty(response.chunks)| ==>
      r.events[i] == StreamChunk(Verbatim(Chat.NonEmpty(response.chunks)[i]))
    ensures response.Body? ==>
      r.after.service.current.Some?
      && r.after.service.current.value.history
        == OngoingHistory(o.service) + [Chat.Message(Chat.User, TaskMessage(text)), Chat.Message(Chat.Model, ModelText(r.events))]
    ensures r.after.service.current.Some?
      && r.after.service.current.value.id == Gemini.GetOrCreateSession(o.service).0.id
    ensures !response.Body? ==> r.after.service == Gemini.GetOrCreateSession(o.service).1
    ensures Gemini.Valid(o.service) ==> Gemini.Valid(r.after.service)
    ensures Continues(o.service, r.after.service)
    ensures |r.events| > 0 && Terminal(r.events[|r.events| - 1])
  {
    var (stream, g) := Gemini.StreamLearningTask(o.service, text, None, response);
    var calls := [ChatCall(stream.request.message)];
    match stream
    case Rejected(_, _) => Step(o.(service := g), [Event.Error(Fixed(TaskFailed))], calls, [], None)
    case Streamed(_, yielded, failure, _) =>
      Chat.NonEmptyKeepsAll(yielded);
      Step(o.(service := g), StreamEvents(yielded, failure, o.state.userRole), calls, [], None)
  }

  // ---------------------------------------------------------------------------
  // Text turns
  // ---------------------------------------------------------------------------

  /** The turn's first event is the role question. */
  predicate AsksRole(r: Step) {
    |r.events| > 0 && r.events[0] == StreamChunk(Fixed(Reply(RoleQuestion, r.after.state.userName)))
  }

  /** Lines 71-130: the conversational reply, with what the text said about the
      user already merged into the state. */
  function Answer(o: Orchestrator, merged: SessionState, reading: Reading): (r: Step)
    ensures r.trail == [] && r.saved.None? && r.calls == [] && r.after.service == o.service
    ensures r.after.state.hasIntroducedSelf && r.after.state.initialized == merged.initialized
    ensures |r.events| == 2 && r.events[1] == TaskComplete
    ensures r.events[0].StreamChunk? && r.events[0].content.Fixed? && r.events[0].content.line.Reply?
    ensures r.events[0].content.line.userName == r.after.state.userName == merged.userName
    ensures merged.roleConfirmed ==> r.after.state.roleConfirmed && r.after.state.userRole == merged.userRole
    ensures (merged.roleConfirmed <==> merged.userRole.Some?) ==>
      && (r.after.state.roleConfirmed <==> r.after.state.userRole.Some?)
      && r.events[0].content.line.pitch != Listening
  {
    var (s, pitch) := Converse(merged, reading.answer, News(reading));
    Step(o.(state := s), [StreamChunk(Fixed(Reply(pitch, s.userName))), TaskComplete], [], [], None)
  }

  /** Lines 52-133: text without a file, given what the classifiers read in it. */
  function Respond(o: Orchestrator, text: string, reading: Reading, env: Environment): (r: Step)
    ensures r.trail == [] && r.saved.None?
    // routing: conversation stays local, everything else is a learning task
    ensures Conversational(o.state, reading) <==> r.calls == []
    ensures Conversational(o.state, reading) ==>
      && r.after.service == o.service && |r.events| == 2 && r.events[1] == TaskComplete
      && r.events[0].StreamChunk? && r.events[0].content.Fixed? && r.events[0].content.line.Reply?
      && r.events[0].content.line.userName == r.after.state.userName
    ensures !Conversational(o.state, reading) ==>
      r.calls == [ChatCall(TaskMessage(text))]
      && r.after.state == Merge(o.state, reading.identity).(hasIntroducedSelf := true)
    // the turn ends in a terminal event, in the same chat session
    ensures |r.events| > 0 && Terminal(r.events[|r.events| - 1])
    ensures Continues(o.service, r.after.service)
    ensures Gemini.Valid(o.service) ==> Gemini.Valid(r.after.service)
  {
    var merged := Merge(o.state, reading.identity);
    if Conversational(o.state, reading) then Answer(o, merged, reading)
    else TaskTurn(o.(state := merged.(hasIntroducedSelf := true)), text, env.chat)
  }

  /** Lines 62-66 and 71-130: what a text says about the user is kept, a confirmed
      role stays confirmed, and the session state stays well formed; the fallback
      reply of line 113 is never chosen. */
  lemma RespondKeeps(o: Orchestrator, text: string, reading: Reading, env: Environment)
    ensures var r := Respond(o, text, reading, env);
      && r.after.state.hasIntroducedSelf && r.after.state.initialized == o.state.initialized
      && (Truthy(reading.identity.name) ==> r.after.state.userName == reading.identity.name)
      && (!Truthy(reading.identity.name) ==> r.after.state.userName == o.state.userName)
      && (reading.identity.role.Some? ==> r.after.state.userRole == reading.identity.role && r.after.state.roleConfirmed)
      && (o.state.roleConfirmed ==> r.after.state.roleConfirmed)
    ensures (o.state.roleConfirmed <==> o.state.userRole.Some?) ==>
      var r := Respond(o, text, reading, env);
      && (r.after.state.roleConfirmed <==> r.after.state.userRole.Some?)
      && r.events[0] != StreamChunk(Fixed(Reply(Listening, r.after.state.userName)))
  {
  }

  /** Lines 69-111: the role question. A bare role answer to a pending question
      settles it; any other conversational answer abandons it, and the question is
      asked again exactly when the reply is a fresh introduction with the role still
      unknown. A role detected in the text confirms the role but leaves the question
      flag set. */
  lemma PendingRoleQuestion(o: Orchestrator, text: string, reading: Reading, env: Environment)
    requires Conversational(o.state, reading)
    ensures AsksRole(Respond(o, text, reading, env)) ==>
      Respond(o, text, reading, env).after.state.roleAsked && Respond(o, text, reading, env).after.state.userRole.None?
    ensures o.state.roleAsked && !o.state.roleConfirmed && reading.identity.role.None? && reading.answer.Some? ==>
      var after := Respond(o, text, reading, env).after.state;
      after.userRole == reading.answer && after.roleConfirmed && !after.roleAsked
    ensures o.state.roleAsked && !o.state.roleConfirmed && reading.identity.role.None? && reading.answer.None? ==>
      (Respond(o, text, reading, env).after.state.roleAsked <==> AsksRole(Respond(o, text, reading, env)))
    ensures o.state.roleAsked && reading.identity.role.Some? ==> Respond(o, text, reading, env).after.state.roleAsked
  {
  }

  /** Lines 72-111: a user who, asked for a role, answers with only a name is
      asked again. */
  lemma RoleQuestionRepeats(o: Orchestrator, text: string, reading: Reading, env: Environment)
    requires Wf(o.state) && o.state.hasIntroducedSelf && o.state.roleAsked && o.state.userRole.None?
    requires !reading.task && Truthy(reading.identity.name) && reading.identity.role.None? && reading.answer.None?
    ensures AsksRole(Respond(o, text, reading, env))
    ensures Respond(o, text, reading, env).after.state.userName == reading.identity.name
  {
  }

  // ---------------------------------------------------------------------------
  // File turns
  // ---------------------------------------------------------------------------

  /** Lines 160-161: the fast path for short texts. */
  function RouteMode(extractedText: string): (m: Mode)
    ensures m == Fast <==> |extractedText| < 800
  {
    if |extractedText| < 800 then Fast else Deep
  }

  /** The analysis stages of a file turn: a result with the service after it, or the
      message of the error that stopped them; with the remote calls made. */
  datatype Analysis =
    | Analysed(result: Gemini.AnalysisResult, service: Gemini.Service, calls: seq<Call>)
    | Aborted(message: Option<string>, calls: seq<Call>)

  /** Whether every stage of a file turn gets what it needs: the file is read,
      perception replies, the context has an ownership (as the fallback context
      does), and reasoning replies. */
  predicate AnalysisSucceeds(env: Environment) {
    && env.encoding.Some? && env.perception.Replied?
    && Gemini.Diagnosable(Gemini.Interpret(env.interpretation))
    && env.reasoning.Replied?
  }

  /** An analysis leaves the ongoing chat session in use and well formed. */
  predicate Sound(g: Gemini.Service, analysis: Analysis) {
    analysis.Analysed? ==> Continues(g, analysis.service) && (Gemini.Valid(g) ==> Gemini.Valid(analysis.service))
  }

  /** The summary call of a result, made only when the summary can be built. */
  function Injected(result: Gemini.AnalysisResult): (r: seq<Call>)
    ensures r == [InjectCall(result)] <==> Gemini.Summarisable(result.feedback)
    ensures r == [] <==> !Gemini.Summarisable(result.feedback)
  {
    if Gemini.Summarisable(result.feedback) then [InjectCall(result)] else []
  }

  /** Lines 153-176: encode, perceive, route, interpret, reason. A failed file read
      rejects with an error that has no message. */
  function Analyse(g: Gemini.Service, file: FileInput, instruction: string, env: Environment): (r: Analysis)
    ensures r.Analysed? <==> AnalysisSucceeds(env)
    ensures env.encoding.None? ==> r == Aborted(None, [])
    ensures env.encoding.Some? && env.perception.Failed? ==>
      r == Aborted(Some(Gemini.PerceptionError), [PerceiveCall(env.encoding.value, file.mimeType)])
    ensures env.encoding.Some? && env.perception.Replied? ==>
      var text := Gemini.Perceive(env.perception).value;
      var context := Gemini.Interpret(env.interpretation);
      && |r.calls| >= 2
      && r.calls[0] == PerceiveCall(env.encoding.value, file.mimeType)
      && r.calls[1] == InterpretCall(text)
      && (!Gemini.Diagnosable(context) ==> r == Aborted(Some(Gemini.ReasoningError), r.calls[..2]))
      && (Gemini.Diagnosable(context) ==>
            |r.calls| >= 3 && r.calls[2] == ReasonCall(RouteMode(text), env.encoding.value, file.mimeType, text, instruction))
      && (Gemini.Diagnosable(context) && env.reasoning.Failed? ==>
            r == Aborted(Some(Gemini.ReasoningError), r.calls[..3]))
    ensures r.Analysed? ==> r.calls[3..] == Injected(r.result)
    ensures Sound(g, r)
  {
    match env.encoding
    case None => Aborted(None, [])
    case Some(image) =>
      match Gemini.Perceive(env.perception)
      case Err(m) => Aborted(Some(m), [PerceiveCall(image, file.mimeType)])
      case Ok(text) =>
        Conclude(g, text, Gemini.Interpret(env.interpretation), env,
                 [PerceiveCall(image, file.mimeType), InterpretCall(text)],
                 ReasonCall(RouteMode(text), image, file.mimeType, text, instruction))
  }

  /** Lines 167-176: the reasoning stage, after the calls made so far. Without an
      ownership in the context it fails before its request; on success the
      analysis summary goes into the ongoing chat session. */
  function Conclude(g: Gemini.Service, text: string, context: Gemini.Interpretation, env: Environment,
                    calls: seq<Call>, reasonCall: Call): (r: Analysis)
    ensures r.Analysed? <==> Gemini.Diagnosable(context) && env.reasoning.Replied?
    ensures !Gemini.Diagnosable(context) ==> r == Aborted(Some(Gemini.ReasoningError), calls)
    ensures Gemini.Diagnosable(context) && r.Aborted? ==>
      r == Aborted(Some(Gemini.ReasoningError), calls + [reasonCall])
    ensures r.Analysed? ==>
      && r.calls == calls + [reasonCall] + Injected(r.result)
      && r.service == Gemini.InjectAnalysisContext(g, r.result, env.injection)
    ensures Sound(g, r)
  {
    var reasoned := Gemini.Reason(g, text, context, env.reasoning, env.draftId, env.analysedAt, env.injection);
    var issued := if Gemini.Diagnosable(context) then calls + [reasonCall] else calls;
    match reasoned.result
    case Err(m) => Aborted(Some(m), issued)
    case Ok(r) => Analysed(r, reasoned.service, issued + Injected(r))
  }

  /** The result of a completed analysis records what each stage gave: the
      extracted text, the context's subject, topic and ownership, and the draft id
      and clock reading; the reasoning mode follows the text's length. */
  lemma AnalysisRecordsStages(g: Gemini.Service, file: FileInput, instruction: string, env: Environment)
    ensures var r := Analyse(g, file, instruction, env);
      r.Analysed? ==>
        var text := Gemini.Perceive(env.perception).value;
        var context := Gemini.Interpret(env.interpretation);
        && r.result.rawText == OrElse(env.perception.body.text, "")
        && r.result.subject == context.subject && r.result.topic == context.topic
        && r.result.ownership == context.ownership && r.result.ownership.Some?
        && r.result.id == env.draftId && r.result.timestamp == env.analysedAt
        && r.calls[2].mode == RouteMode(r.result.rawText)
  {
  }

  /** An empty interpretation reply (`{}`) stops the analysis with the diagnosis
      error before the reasoning request, whatever reasoning would have replied. */
  lemma EmptyInterpretationAborts(g: Gemini.Service, file: FileInput, instruction: string, env: Environment)
    requires env.encoding.Some? && env.perception.Replied?
    requires env.interpretation == Gemini.Replied(Gemini.Interpretation(None, None, None, None))
    ensures Analyse(g, file, instruction, env)
      == Aborted(Some(Gemini.ReasoningError),
                 [PerceiveCall(env.encoding.value, file.mimeType), InterpretCall(Gemini.Perceive(env.perception).value)])
  {
  }

  /** The record a file turn creates (lines 141-147). */
  function NewSubmission(file: FileInput, env: Environment): Submission {
    Submission(env.submissionId, env.submittedAt, Created, file.name, None, None)
  }

  /** Lines 139-209: the submission's lifecycle, given how the stages went. */
  function Submit(o: Orchestrator, file: FileInput, isGuest: bool, env: Environment, analysis: Analysis): (r: Step)
    ensures r.after.state == o.state && r.calls == analysis.calls
    // one record: created, then processing, then completed or failed
    ensures |r.trail| == 3 && r.trail[0] == NewSubmission(file, env)
    ensures r.trail[1] == r.trail[0].(status := Status.Processing)
    ensures r.trail[2].id == env.submissionId && r.trail[2].timestamp == env.submittedAt
      && r.trail[2].fileName == file.name
    ensures r.trail[2].status == Completed <==> analysis.Analysed?
    ensures r.trail[2].status == Status.Error <==> analysis.Aborted?
    // success: the result carries the submission's id; only a signed-in user's is saved
    ensures analysis.Analysed? ==>
      && r.trail[2].result == Some(analysis.result.(id := env.submissionId)) && r.trail[2].error.None?
      && r.events == [PhaseUpdate(Phase.Processing), SubmissionComplete(r.trail[2]), PhaseUpdate(Complete),
                      FollowUp(AnalysisFollowUp(o.state.userRole))]
      && r.saved == (if isGuest then None else Some(r.trail[2]))
      && r.after.service == analysis.service
    // failure: the error is recorded and reported, with a fixed text when it has none
    ensures analysis.Aborted? ==>
      && r.trail[2].result.None? && r.trail[2].error == analysis.message
      && r.events == [PhaseUpdate(Phase.Processing), Event.Error(Failure(analysis.message)), PhaseUpdate(Phase.Error)]
      && r.saved.None? && r.after.service == o.service
    ensures |r.events| > 0 && Terminal(r.events[|r.events| - 1])
  {
    var created := NewSubmission(file, env);
    var processing := created.(status := Status.Processing);
    match analysis
    case Aborted(message, calls) =>
      var failed := processing.(status := Status.Error, error := message);
      Step(o, [PhaseUpdate(Phase.Processing), Event.Error(Failure(message)), PhaseUpdate(Phase.Error)],
           calls, [created, processing, failed], None)
    case Analysed(result, g, calls) =>
      var completed := processing.(status := Completed, result := Some(result.(id := env.submissionId)));
      Step(o.(service := g),
           [PhaseUpdate(Phase.Processing), SubmissionComplete(completed), PhaseUpdate(Complete),
            FollowUp(AnalysisFollowUp(o.state.userRole))],
           calls, [created, processing, completed], if isGuest then None else Some(completed))
  }

  // ---------------------------------------------------------------------------
  // processInput and resetSession
  // ---------------------------------------------------------------------------

  /** `processInput` (lines 31-238), given what the classifiers read in the text and
      how the analysis stages of a file went. */
  function Turn(o: Orchestrator, input: UnifiedInput, isGuest: bool, env: Environment, reading: Reading, analysis: Analysis): (r: Step)
    requires Sound(o.service, analysis)
    ensures r.after.state.initialized
    ensures Wf(o.state) ==> Wf(r.after.state)
    ensures Wf(o.state) && o.state.roleConfirmed ==> r.after.state.roleConfirmed
    ensures o.state.hasIntroducedSelf || input.file.Some? ==> r.after.state.hasIntroducedSelf
    // every turn with input says something and ends in a terminal event
    ensures |r.events| == 0 <==> input.file.None? && input.text == ""
    ensures |r.events| > 0 ==> Terminal(r.events[|r.events| - 1])
    ensures input.file.None? ==> r.trail == [] && r.saved.None?
    ensures input.file.None? && input.text != "" && reading.task ==> r.calls == [ChatCall(TaskMessage(input.text))]
    ensures input.file.None? && input.text != "" && Truthy(reading.identity.name) ==>
      r.after.state.userName == reading.identity.name
    ensures r.saved.Some? ==> !isGuest && r.saved.value.status == Completed
    // one chat session per conversation, its history only growing
    ensures Gemini.Valid(o.service) ==> Gemini.Valid(r.after.service)
    ensures Continues(o.service, r.after.service)
  {
    var s := Initialize(o.state, isGuest, env.profile);
    match input.file
    case Some(file) => Submit(o.(state := s.(hasIntroducedSelf := true)), file, isGuest, env, analysis)
    case None =>
      if input.text != "" then
        RespondKeeps(o.(state := s), input.text, reading, env);
        Respond(o.(state := s), input.text, reading, env)
      else Step(o.(state := s), [], [], [], None)
  }

  /** Lines 34-44: the stored profile is read only on the first turn, and never
      for a guest. */
  lemma ProfileReadOnce(o: Orchestrator, input: UnifiedInput, isGuest: bool, env: Environment,
                        reading: Reading, analysis: Analysis, profile: Option<Profile>)
    requires Sound(o.service, analysis)
    requires o.state.initialized || isGuest
    ensures Turn(o, input, isGuest, env, reading, analysis) == Turn(o, input, isGuest, env.(profile := profile), reading, analysis)
  {
  }

  /** How the analysis stages go for this input; without a file there are none. */
  function AnalyseInput(g: Gemini.Service, input: UnifiedInput, env: Environment): (r: Analysis)
    ensures Sound(g, r)
  {
    match input.file
    case Some(file) => Analyse(g, file, input.text, env)
    case None => Aborted(None, [])
  }

  /** `processInput`: a file is analysed, and the analysis completes exactly when
      every stage gets what it needs; a text with a task keyword goes to the
      learning-task chat; a name found in a text is kept. */
  function ProcessInput(o: Orchestrator, input: UnifiedInput, isGuest: bool, env: Environment): (r: Step)
    ensures input.file.Some? ==>
      && |r.trail| == 3 && r.trail[0] == NewSubmission(input.file.value, env)
      && (r.trail[2].status == Completed <==> AnalysisSucceeds(env))
      && (r.saved.Some? <==> AnalysisSucceeds(env) && !isGuest)
    ensures input.file.None? && input.text != "" && IsTaskIntent(input.text) ==>
      r.calls == [ChatCall(TaskMessage(input.text))]
    ensures input.file.None? && input.text != "" && Truthy(ExtractIdentity(input.text).name) ==>
      r.after.state.userName == ExtractIdentity(input.text).name
  {
    var reading := Read(input.text);
    Turn(o, input, isGuest, env, reading, AnalyseInput(o.service, input, env))
  }

  /** `resetSession`: the session state starts over and the chat session is dropped. */
  function ResetSession(o: Orchestrator): (r: Orchestrator)
    ensures r.state == Fresh && Wf(r.state) && r.service.current.None? && r.service.minted == o.service.minted
  {
    Orchestrator(Fresh, Gemini.EndSession(o.service))
  }

  /** After `resetSession` the next learning task opens a new chat session, whose
      history holds only that exchange. */
  lemma ResetOpensNewChat(o: Orchestrator, text: string, response: Chat.Response)
    requires Gemini.Valid(o.service) && o.service.current.Some?
    ensures var r := TaskTurn(ResetSession(o), text, response);
      && r.after.service.current.value.id != o.service.current.value.id
      && (response.Body? ==>
            r.after.service.current.value.history
              == [Chat.Message(Chat.User, TaskMessage(text)), Chat.Message(Chat.Model, ModelText(r.events))])
  {
    Gemini.FreshAfterEnd(o.service);
  }
}

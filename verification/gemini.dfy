/** The client of the analysis endpoints and owner of the ongoing chat session
    (`GeminiService`, services/geminiService.ts:102-293). Each remote call is given
    as the reply it received: `Failed` stands for a rejected fetch, a status that is
    not ok, or a body that is not JSON. */
module Gemini {
  import opened Types
  import opened Text
  import Chat

  datatype Reply<T> = Failed | Replied(body: T)

  // ---------------------------------------------------------------------------
  // Session lifecycle
  // ---------------------------------------------------------------------------

  /** The service's state: the ongoing session, if any, and how many sessions it has
      built (a fresh session's identity is this count). */
  datatype Service = Service(current: Option<Chat.Session>, minted: nat)

  const Initial: Service := Service(None, 0)

  /** Every session the service holds was built by it, for the question workspace. */
  predicate Valid(g: Service) {
    g.current.Some? ==>
      g.current.value.id < g.minted && g.current.value.instruction == QuestionWorkspaceInstruction
  }

  /** `getOrCreateSession`: the held session, or a fresh one that becomes held. */
  function GetOrCreateSession(g: Service): (r: (Chat.Session, Service))
    ensures r.1.current == Some(r.0)
    ensures g.current.Some? ==> r.0 == g.current.value && r.1 == g
    ensures g.current.None? ==> r.0.id == g.minted && r.0.history == [] && r.1.minted == g.minted + 1
    ensures Valid(g) ==> Valid(r.1)
  {
    match g.current
    case Some(s) => (s, g)
    case None =>
      var s := Chat.NewSession(g.minted, QuestionWorkspaceInstruction);
      (s, Service(Some(s), g.minted + 1))
  }

  /** `createQuestionSession`: always a new session, which the service does not hold. */
  function CreateQuestionSession(g: Service): (r: (Chat.Session, Service))
    ensures r.0.id == g.minted && r.0.history == [] && r.0.instruction == QuestionWorkspaceInstruction
    ensures r.1.current == g.current && r.1.minted == g.minted + 1
  {
    (Chat.NewSession(g.minted, QuestionWorkspaceInstruction), g.(minted := g.minted + 1))
  }

  /** `endSession`: forgets the held session. */
  function EndSession(g: Service): (r: Service)
    ensures r.current.None? && r.minted == g.minted
  {
    g.(current := None)
  }

  /** Asking twice gives the same session, with nothing changed in between. */
  lemma SameSessionUntilEnd(g: Service)
    ensures GetOrCreateSession(GetOrCreateSession(g).1) == GetOrCreateSession(g)
  {
  }

  /** After `endSession` the next session is a fresh one, distinct from the ended one. */
  lemma FreshAfterEnd(g: Service)
    requires Valid(g) && g.current.Some?
    ensures GetOrCreateSession(EndSession(g)).0.id != g.current.value.id
    ensures GetOrCreateSession(EndSession(g)).0.history == []
  {
  }

  /** A question session never is the ongoing session, before or after. */
  lemma QuestionSessionIsNew(g: Service)
    requires Valid(g)
    ensures g.current.Some? ==> CreateQuestionSession(g).0.id != g.current.value.id
    ensures GetOrCreateSession(CreateQuestionSession(g).1).0.id != CreateQuestionSession(g).0.id
  {
  }

  // ---------------------------------------------------------------------------
  // Analysis stages
  // ---------------------------------------------------------------------------

  const PerceptionError: string := "Unable to read the document."
  const ReasoningError: string := "Eduvane could not complete the diagnosis."

  /** The perception endpoint's JSON body: its `text` field, if present. */
  datatype PerceptionBody = PerceptionBody(text: Option<string>)

  /** `perceive`: the extracted text, `""` when the field is missing, and one fixed
      message for every failure. */
  function Perceive(reply: Reply<PerceptionBody>): (r: Result<string>)
    ensures r.Err? <==> reply.Failed?
    ensures r.Err? ==> r.message == PerceptionError
    ensures r.Ok? && Truthy(reply.body.text) ==> r.value == reply.body.text.value
    ensures r.Ok? && !Truthy(reply.body.text) ==> r.value == ""
  {
    match reply
    case Failed => Err(PerceptionError)
    case Replied(body) => Ok(OrElse(body.text, ""))
  }

  datatype Intent = Solution | Explanation | Both
  datatype OwnershipKind = StudentDirect | TeacherUploadedStudentWork
  datatype StudentInfo = StudentInfo(name: Option<string>, className: Option<string>, confidence: Option<string>)

  /** `ownership`: its `type` and `student` fields, either of which may be missing. */
  datatype Ownership = Ownership(kind: Option<OwnershipKind>, student: Option<StudentInfo>)

  /** The interpretation endpoint's JSON body, which `interpret` returns as it came.
      Any field may be missing: an empty model text reaches the client as `{}`
      (server.ts:102). A body that is not an object (`null`) behaves, for everything
      that reads it, as one without fields. */
  datatype Interpretation = Interpretation(
    subject: Option<string>,
    topic: Option<string>,
    intent: Option<Intent>,
    ownership: Option<Ownership>)

  /** The context used when interpretation fails. */
  const DefaultInterpretation: Interpretation :=
    Interpretation(Some("General"), Some("Unknown"), Some(Explanation), Some(Ownership(Some(StudentDirect), None)))

  /** Whether `reason` gets past `context.ownership.type` (line 191), which throws
      when the context has no ownership. */
  predicate Diagnosable(context: Interpretation) {
    context.ownership.Some?
  }

  /** `interpret`: never fails; a failed call degrades to the default context, and
      a reply is passed on whatever it lacks. */
  function Interpret(reply: Reply<Interpretation>): (r: Interpretation)
    ensures reply.Failed? ==> r == DefaultInterpretation
    ensures reply.Replied? ==> r == reply.body
  {
    match reply
    case Failed => DefaultInterpretation
    case Replied(body) => body
  }

  /** The context `interpret` hands on lets reasoning proceed exactly when the call
      failed or the reply has an ownership; the empty reply `{}` does not. */
  lemma InterpretDiagnosable(reply: Reply<Interpretation>)
    ensures Diagnosable(Interpret(reply)) <==> reply.Failed? || reply.body.ownership.Some?
    ensures !Diagnosable(Interpret(Replied(Interpretation(None, None, None, None))))
  {
  }

  datatype Score = Score(value: string, labelText: string, reasoning: string)
  datatype FeedbackKind = Strength | Gap | Neutral

  /** A feedback item; the reasoning schema requires none of its fields. */
  datatype FeedbackItem = FeedbackItem(kind: Option<FeedbackKind>, text: string, reference: Option<string>)
  datatype Trend = Stable | Improving | Declining | New
  datatype Insight = Insight(title: string, description: string, trend: Trend)
  datatype GuidanceStep = GuidanceStep(step: string, rationale: string)
  datatype Handwriting = Handwriting(quality: string, feedback: string)
  datatype Stability = Stability(status: Option<string>, evidence: Option<string>)

  /** The score shown while no score came back. */
  const PendingScore: Score := Score("-", "Pending", "Analysis incomplete")

  /** The reasoning endpoint's JSON body. An array-typed field is `None` when it is
      missing or holds anything but an array. */
  datatype ReasoningBody = ReasoningBody(
    score: Option<Score>,
    feedback: Option<seq<FeedbackItem>>,
    insights: Option<seq<Insight>>,
    guidance: Option<seq<GuidanceStep>>,
    handwriting: Option<Handwriting>,
    conceptStability: Option<Stability>,
    teacherInsight: Option<string>)

  datatype AnalysisResult = AnalysisResult(
    id: string,
    timestamp: int,
    subject: Option<string>,
    topic: Option<string>,
    score: Score,
    feedback: seq<FeedbackItem>,
    insights: seq<Insight>,
    guidance: seq<GuidanceStep>,
    handwriting: Option<Handwriting>,
    conceptStability: Option<Stability>,
    teacherInsight: Option<string>,
    ownership: Option<Ownership>,
    rawText: string)

  /** `Array.isArray(x) ? x : []`. */
  function ArrayOrEmpty<T>(x: Option<seq<T>>): (r: seq<T>)
    ensures x.Some? ==> r == x.value
    ensures x.None? ==> r == []
  {
    x.GetOr([])
  }

  /** The mapping of a reasoning body onto a result (services/geminiService.ts:225-239):
      the id and clock reading given, the context's subject, topic and ownership, the
      body's fields with the placeholder score and empty lists standing in for
      missing ones, and the extracted text. */
  function MapReasoning(body: ReasoningBody, context: Interpretation, extractedText: string, id: string, now: int): (r: AnalysisResult)
    ensures r.id == id && r.timestamp == now
    ensures r.subject == context.subject && r.topic == context.topic && r.ownership == context.ownership
    ensures r.rawText == extractedText
    ensures r.score == body.score.GetOr(PendingScore)
    ensures r.feedback == ArrayOrEmpty(body.feedback)
    ensures r.insights == ArrayOrEmpty(body.insights)
    ensures r.guidance == ArrayOrEmpty(body.guidance)
    ensures r.handwriting == body.handwriting && r.conceptStability == body.conceptStability
    ensures r.teacherInsight == body.teacherInsight
  {
    AnalysisResult(
      id, now, context.subject, context.topic,
      body.score.GetOr(PendingScore),
      ArrayOrEmpty(body.feedback), ArrayOrEmpty(body.insights), ArrayOrEmpty(body.guidance),
      body.handwriting, body.conceptStability, body.teacherInsight,
      context.ownership, extractedText)
  }

  /** The outcome of `reason`: the result or its error, and the service after the
      result's summary was sent into the ongoing session. */
  datatype Reasoned = Reasoned(result: Result<AnalysisResult>, service: Service)

  /** `reason`. Without an ownership in the context the prompt cannot be built and
      no request is sent; otherwise a reply that arrived always yields a result,
      however incomplete its fields. Every failure becomes one fixed message and
      leaves the service alone. */
  function Reason(
    g: Service, extractedText: string, context: Interpretation,
    reply: Reply<ReasoningBody>, id: string, now: int, injection: Chat.Response): (r: Reasoned)
    ensures r.result.Ok? <==> Diagnosable(context) && reply.Replied?
    ensures r.result.Err? ==> r.result.message == ReasoningError && r.service == g
    ensures r.result.Ok? ==> r.result.value == MapReasoning(reply.body, context, extractedText, id, now)
    ensures r.result.Ok? ==> r.result.value.ownership.Some?
    ensures r.result.Ok? ==> r.service == InjectAnalysisContext(g, r.result.value, injection)
  {
    if !Diagnosable(context) then Reasoned(Err(ReasoningError), g)
    else
      match reply
      case Failed => Reasoned(Err(ReasoningError), g)
      case Replied(body) =>
        var result := MapReasoning(body, context, extractedText, id, now);
        Reasoned(Ok(result), InjectAnalysisContext(g, result, injection))
  }

  /** When interpretation fails, reasoning still runs, on the default context: the
      result is filed under General / Unknown as the student's own work. */
  lemma FallbackContextReasons(
    g: Service, extractedText: string, reply: Reply<ReasoningBody>, id: string, now: int, injection: Chat.Response)
    ensures var r := Reason(g, extractedText, Interpret(Failed), reply, id, now, injection);
      && (r.result.Ok? <==> reply.Replied?)
      && (r.result.Ok? ==>
            && r.result.value.subject == Some("General") && r.result.value.topic == Some("Unknown")
            && r.result.value.ownership == Some(Ownership(Some(StudentDirect), None))
            && r.result.value.rawText == extractedText)
  {
  }

  // ---------------------------------------------------------------------------
  // Chat-backed operations
  // ---------------------------------------------------------------------------

  function FeedbackKindName(k: FeedbackKind): string {
    match k
    case Strength => "STRENGTH"
    case Gap => "GAP"
    case Neutral => "NEUTRAL"
  }

  function TrendName(t: Trend): string {
    match t
    case Stable => "stable"
    case Improving => "improving"
    case Declining => "declining"
    case New => "new"
  }

  function OwnershipName(k: OwnershipKind): string {
    match k
    case StudentDirect => "student_direct"
    case TeacherUploadedStudentWork => "teacher_uploaded_student_work"
  }

  /** How a template literal shows a string field that may be missing. */
  function Shown(s: Option<string>): string {
    s.GetOr("undefined")
  }

  /** Whether every feedback item has a kind: `f.type.toUpperCase()` (line 270)
      throws on an item without one. */
  predicate Summarisable(items: seq<FeedbackItem>) {
    forall i :: 0 <= i < |items| ==> items[i].kind.Some?
  }

  /** The summary line of one feedback item. */
  function FeedbackLine(f: FeedbackItem): string
    requires f.kind.Some?
  {
    "- " + FeedbackKindName(f.kind.value) + ": " + f.text
  }

  function FeedbackLines(items: seq<FeedbackItem>): (r: seq<string>)
    requires Summarisable(items)
    ensures |r| == |items| && forall i :: 0 <= i < |items| ==> r[i] == FeedbackLine(items[i])
  {
    seq(|items|, i requires 0 <= i < |items| => FeedbackLine(items[i]))
  }

  function GapTexts(items: seq<FeedbackItem>): seq<string> {
    if |items| == 0 then []
    else (if items[0].kind == Some(Gap) then [items[0].text] else []) + GapTexts(items[1..])
  }

  function InsightLines(items: seq<Insight>): seq<string> {
    seq(|items|, i requires 0 <= i < |items| => "- " + items[i].title + ": " + TrendName(items[i].trend))
  }

  /** The line naming the result's subject and topic. */
  function SubjectLine(r: AnalysisResult): string {
    "Subject: " + Shown(r.subject) + " (" + Shown(r.topic) + ")."
  }

  // The fixed parts of the summary, in order.
  const SummaryHeading: string := "[SYSTEM UPDATE: LEARNING CONTEXT AVAILABLE]\nNew analysis completed.\n"
  const OwnershipHeading: string := "\nOwnership: "
  const ObservationHeading: string := ".\n\nObservation Summary:\n"
  const GapsHeading: string := "\n\nIdentified Learning Gaps:\n"
  const StabilityHeading: string := "\n\nStability Signal: "
  const NoEvidence: string := "No specific evidence"
  const InsightsHeading: string := ")\n\nPrevious Insights (Longitudinal):\n"
  const TeacherHeading: string := "\n\nTeacher Insight (If any): "
  const SummaryClosing: string :=
    "\n\nThis information is available for future task generation. Use it to infer intent (misconception vs slip) and sequence diagnostics."

  /** The ownership line and the heading of the observations; a missing ownership
      or type reads as `student_direct`. */
  function OwnershipPart(r: AnalysisResult): string {
    var kind := if r.ownership.Some? then r.ownership.value.kind.GetOr(StudentDirect) else StudentDirect;
    OwnershipHeading + OwnershipName(kind) + ObservationHeading
  }

  /** Everything after the observations: gaps, stability signal, insights, teacher
      insight and the closing note. */
  function SummaryTail(r: AnalysisResult): string {
    var stability := if r.conceptStability.Some? then r.conceptStability.value else Stability(None, None);
    GapsHeading + Join(GapTexts(r.feedback), ", ")
      + StabilityHeading + OrElse(stability.status, "Unknown") + " (" + OrElse(stability.evidence, NoEvidence)
      + InsightsHeading + Join(InsightLines(r.insights), "\n")
      + TeacherHeading + OrElse(r.teacherInsight, "None")
      + SummaryClosing
  }

  /** The summary of a result that is sent into the ongoing session, field for field
      as in services/geminiService.ts:263-283 (the template's indentation aside); it
      cannot be built when a feedback item has no kind. */
  function ContextPayload(r: AnalysisResult): (p: Option<string>)
    ensures p.Some? <==> Summarisable(r.feedback)
  {
    if !Summarisable(r.feedback) then None
    else Some(SummaryHeading + SubjectLine(r) + OwnershipPart(r) + Join(FeedbackLines(r.feedback), "\n") + SummaryTail(r))
  }

  /** The summary names the result's subject and topic and holds one line per
      feedback item. */
  lemma PayloadMentions(r: AnalysisResult)
    requires Summarisable(r.feedback)
    ensures Contains(ContextPayload(r).value, SubjectLine(r))
    ensures forall i :: 0 <= i < |r.feedback| ==> Contains(ContextPayload(r).value, FeedbackLine(r.feedback[i]))
  {
    PayloadSections(SummaryHeading, SubjectLine(r), OwnershipPart(r), FeedbackLines(r.feedback), SummaryTail(r));
  }

  /** The payload contains its subject line and each of its feedback lines. */
  lemma PayloadSections(head: string, subject: string, middle: string, lines: seq<string>, tail: string)
    ensures Contains(head + subject + middle + Join(lines, "\n") + tail, subject)
    ensures forall i :: 0 <= i < |lines| ==> Contains(head + subject + middle + Join(lines, "\n") + tail, lines[i])
  {
    var observations := Join(lines, "\n");
    ContainsSelf(subject);
    ContainsPrepend(head, subject, subject);
    ContainsAppend(head + subject, middle, subject);
    ContainsAppend(head + subject + middle, observations, subject);
    ContainsAppend(head + subject + middle + observations, tail, subject);
    forall i | 0 <= i < |lines|
      ensures Contains(head + subject + middle + observations + tail, lines[i])
    {
      ContainsJoin(lines, "\n", i);
      ContainsPrepend(head + subject + middle, observations, lines[i]);
      ContainsAppend(head + subject + middle + observations, tail, lines[i]);
    }
  }

  /** `injectAnalysisContext`: builds the summary and sends it through the ongoing
      session with `sendMessage`, swallowing any failure of the send. When the
      summary cannot be built, the returned promise rejects before a session is
      touched; nobody awaits it, so nothing changes. It has no error outcome. */
  function InjectAnalysisContext(g: Service, r: AnalysisResult, response: Chat.Response): (g': Service)
    ensures !Summarisable(r.feedback) ==> g' == g
    ensures Summarisable(r.feedback) ==>
      && g'.current.Some?
      && g'.current.value.id == GetOrCreateSession(g).0.id
      && g'.minted == GetOrCreateSession(g).1.minted
      && (!response.Body? ==> g'.current.value == GetOrCreateSession(g).0)
      && (response.Body? ==>
            g'.current.value.history == GetOrCreateSession(g).0.history
              + [Chat.Message(Chat.User, ContextPayload(r).value), Chat.Message(Chat.Model, Concat(response.chunks))])
    ensures Valid(g) ==> Valid(g')
  {
    match ContextPayload(r)
    case None => g
    case Some(payload) =>
      var (s, g1) := GetOrCreateSession(g);
      var sent := Chat.SendMessage(s, payload, response);
      g1.(current := Some(sent.session))
  }

  /** The role label prefixed to a learning-task message. */
  function RoleLabel(role: Option<Role>): string {
    match role
    case None => "Ambiguous"
    case Some(r) => RoleName(r)
  }

  /** `streamLearningTask`: the message, prefixed with the role label, is streamed
      through the ongoing session, which is created first if needed. */
  function StreamLearningTask(g: Service, message: string, role: Option<Role>, response: Chat.Response): (r: (Chat.Stream, Service))
    ensures r.0.request.message == "[Active User Role: " + RoleLabel(role) + "] " + message
    ensures r.0.request.history == GetOrCreateSession(g).0.history
    ensures r.1.current.Some? && r.1.current.value.id == GetOrCreateSession(g).0.id
    ensures r.0.Rejected? ==> r.1 == GetOrCreateSession(g).1
    ensures r.0.Rejected? <==> !response.Body?
    ensures r.0.Streamed? ==> r.1.current == Some(r.0.session)
    ensures r.0.Streamed? ==> r.0.failure == response.failure && Concat(r.0.yielded) == Concat(response.chunks)
    ensures r.0.Streamed? ==> r.0.yielded == Chat.NonEmpty(response.chunks)
    ensures r.0.Streamed? ==> forall i :: 0 <= i < |r.0.yielded| ==> r.0.yielded[i] != ""
    ensures r.0.Streamed? ==>
      r.0.session.history == GetOrCreateSession(g).0.history
        + [Chat.Message(Chat.User, r.0.request.message), Chat.Message(Chat.Model, Concat(response.chunks))]
    ensures Valid(g) ==> Valid(r.1)
  {
    var (s, g1) := GetOrCreateSession(g);
    var stream := Chat.SendMessageStream(s, "[Active User Role: " + RoleLabel(role) + "] " + message, response);
    match stream
    case Rejected(_, _) => (stream, g1)
    case Streamed(_, _, _, after) => (stream, g1.(current := Some(after)))
  }
}

/** The client-side chat session (`RemoteChatSession`, services/geminiService.ts:23-100):
    it owns the conversation history, sends it with each message to the stateless chat
    endpoint, and records one user/model pair when the reply stream finishes. */
module Chat {
  import opened Types
  import opened Text

  datatype Speaker = User | Model

  /** A history entry `{ role, parts: [{ text }] }`. */
  datatype Message = Message(role: Speaker, text: string)

  /** A chat session: its identity (object identity in the TypeScript service), the
      instruction and model it was built with, and the history it has recorded. */
  datatype Session = Session(id: nat, instruction: Instruction, model: string, history: seq<Message>)

  /** The model a session uses when none is given. */
  const DefaultModel: string := "gemini-3-flash-preview"

  /** `new RemoteChatSession(instruction)`: empty history, default model. */
  function NewSession(id: nat, instruction: Instruction): (s: Session)
    ensures s.history == [] && s.id == id && s.instruction == instruction
  {
    Session(id, instruction, DefaultModel, [])
  }

  /** The JSON payload posted to the chat endpoint. */
  datatype Request = Request(model: string, instruction: Instruction, history: seq<Message>, message: string)

  /** What the transport does with one request: the fetch rejects, the status is not
      ok, the body is missing, or a body delivers decoded chunks and then either ends
      or fails with a read error. */
  datatype Response =
    | Unreachable(reason: string)
    | NotOk
    | NoBody
    | Body(chunks: seq<string>, failure: Option<string>)

  /** The outcome of `sendMessageStream`: it throws before returning a generator, or it
      returns one whose complete run yields `yielded`, ends normally (`failure` absent)
      or by rethrowing the read error, and leaves the session as `session`. */
  datatype Stream =
    | Rejected(request: Request, error: string)
    | Streamed(request: Request, yielded: seq<string>, failure: Option<string>, session: Session)

  /** The chunks the generator yields: the decoded chunks that are not empty. */
  function NonEmpty(chunks: seq<string>): (r: seq<string>)
    ensures |r| <= |chunks|
    ensures forall i :: 0 <= i < |r| ==> r[i] != ""
    ensures Concat(r) == Concat(chunks)
  {
    if |chunks| == 0 then []
    else
      var init := chunks[..|chunks| - 1];
      var last := chunks[|chunks| - 1];
      if last == "" then NonEmpty(init)
      else
        ConcatAppend(NonEmpty(init), last);
        NonEmpty(init) + [last]
  }

  /** Filtering the chunks distributes over concatenation. */
  lemma {:induction false} NonEmptyAppend(a: seq<string>, b: seq<string>)
    ensures NonEmpty(a + b) == NonEmpty(a) + NonEmpty(b)
    decreases |b|
  {
    if |b| == 0 {
      assert a + b == a;
    } else {
      var init := b[..|b| - 1];
      var ab := a + b;
      assert ab[..|ab| - 1] == a + init;
      assert ab[|ab| - 1] == b[|b| - 1];
      NonEmptyAppend(a, init);
      NonEmptySnoc(ab);
      NonEmptySnoc(b);
    }
  }

  /** The chunks yielded from a list: those of all but its last chunk, then the last
      one unless it is empty. */
  lemma NonEmptySnoc(chunks: seq<string>)
    requires |chunks| > 0
    ensures NonEmpty(chunks)
      == NonEmpty(chunks[..|chunks| - 1]) + if chunks[|chunks| - 1] == "" then [] else [chunks[|chunks| - 1]]
  {
  }

  /** A single chunk is yielded exactly when it is not empty. */
  lemma NonEmptyOne(c: string)
    ensures NonEmpty([c]) == if c == "" then [] else [c]
  {
    assert [c][..0] == [];
  }

  /** The chunks yielded from a list: those of its first chunk, then those of the rest. */
  lemma NonEmptyCons(chunks: seq<string>)
    requires |chunks| > 0
    ensures NonEmpty(chunks) == (if chunks[0] == "" then [] else [chunks[0]]) + NonEmpty(chunks[1..])
  {
    assert chunks == [chunks[0]] + chunks[1..];
    NonEmptyAppend([chunks[0]], chunks[1..]);
    NonEmptyOne(chunks[0]);
  }

  /** Chunks that are all non-empty are all yielded, so filtering twice is filtering once. */
  lemma {:induction false} NonEmptyKeepsAll(chunks: seq<string>)
    requires forall i :: 0 <= i < |chunks| ==> chunks[i] != ""
    ensures NonEmpty(chunks) == chunks
    decreases |chunks|
  {
    if |chunks| > 0 {
      NonEmptyKeepsAll(chunks[..|chunks| - 1]);
    }
  }

  /** The generator body (services/geminiService.ts:60-81) as a loop: it yields every
      non-empty chunk and accumulates the reply text that goes into the history. */
  method Generate(chunks: seq<string>) returns (yielded: seq<string>, fullResponseText: string)
    ensures yielded == NonEmpty(chunks)
    ensures fullResponseText == Concat(chunks)
    ensures fullResponseText == Concat(yielded)
  {
    yielded := [];
    fullResponseText := "";
    var i := 0;
    while i < |chunks|
      invariant 0 <= i <= |chunks|
      invariant yielded == NonEmpty(chunks[..i])
      invariant fullResponseText == Concat(yielded)
    {
      var chunk := chunks[i];
      assert chunks[..i + 1][..i] == chunks[..i];
      if chunk != "" {
        ConcatAppend(yielded, chunk);
        fullResponseText := fullResponseText + chunk;
        yielded := yielded + [chunk];
      }
      i := i + 1;
    }
    assert chunks[..|chunks|] == chunks;
  }

  /** The history after a finished generator: the old history, then the user message,
      then the model reply. */
  function Record(s: Session, message: string, reply: string): (t: Session)
    ensures t.id == s.id && t.instruction == s.instruction && t.model == s.model
    ensures |t.history| == |s.history| + 2
    ensures t.history[..|s.history|] == s.history
    ensures t.history[|s.history|] == Message(User, message)
    ensures t.history[|s.history| + 1] == Message(Model, reply)
  {
    s.(history := s.history + [Message(User, message), Message(Model, reply)])
  }

  /** `sendMessageStream`. The payload carries the history as it stood before this
      send, the new message travelling separately. */
  function SendMessageStream(s: Session, message: string, response: Response): (r: Stream)
    ensures r.request == Request(s.model, s.instruction, s.history, message)
    ensures r.Rejected? <==> !response.Body?
    ensures r.Streamed? ==> r.failure == response.failure
    ensures r.Streamed? ==> r.yielded == NonEmpty(response.chunks)
    ensures r.Streamed? ==> forall i :: 0 <= i < |r.yielded| ==> r.yielded[i] != ""
    ensures r.Streamed? ==> Concat(r.yielded) == Concat(response.chunks)
    ensures r.Streamed? ==> r.session == Record(s, message, Concat(r.yielded))
  {
    var request := Request(s.model, s.instruction, s.history, message);
    match response
    case Unreachable(reason) => Rejected(request, reason)
    case NotOk => Rejected(request, "Chat request failed")
    case NoBody => Rejected(request, "No response body")
    case Body(chunks, failure) =>
      var yielded := NonEmpty(chunks);
      Streamed(request, yielded, failure, Record(s, message, Concat(yielded)))
  }

  /** The session after a send, and the reply text or the error `sendMessage` throws. */
  datatype Sent = Sent(session: Session, reply: Result<string>)

  /** `sendMessage`: drains `sendMessageStream` and returns the concatenation. */
  function SendMessage(s: Session, message: string, response: Response): (r: Sent)
    ensures r.reply.Ok? ==>
      SendMessageStream(s, message, response).Streamed?
      && r.reply.value == Concat(SendMessageStream(s, message, response).yielded)
    ensures r.reply.Ok? <==> response.Body? && response.failure.None?
    ensures SendMessageStream(s, message, response).Streamed? ==>
      r.session == SendMessageStream(s, message, response).session
    ensures SendMessageStream(s, message, response).Rejected? ==> r.session == s
  {
    match SendMessageStream(s, message, response)
    case Rejected(_, error) => Sent(s, Err(error))
    case Streamed(_, yielded, failure, after) =>
      if failure.Some? then Sent(after, Err(failure.value)) else Sent(after, Ok(Concat(yielded)))
  }

  // ---------------------------------------------------------------------------
  // Properties
  // ---------------------------------------------------------------------------

  /** A send that fails before streaming leaves the history as it was; a stream that
      starts grows the history by exactly one user/model pair, whether it ends
      normally or by a read error. */
  lemma HistoryGrowth(s: Session, message: string, response: Response)
    ensures !response.Body? ==> SendMessage(s, message, response).session.history == s.history
    ensures response.Body? ==>
      SendMessage(s, message, response).session.history
        == s.history + [Message(User, message), Message(Model, Concat(response.chunks))]
  {
  }

  /** The reply `sendMessage` returns is exactly the model turn it recorded. */
  lemma ReplyIsRecorded(s: Session, message: string, response: Response)
    requires SendMessage(s, message, response).reply.Ok?
    ensures SendMessage(s, message, response).session.history
      == s.history + [Message(User, message), Message(Model, SendMessage(s, message, response).reply.value)]
  {
  }

  /** History is append-only across any sequence of sends. */
  lemma {:induction false} AppendOnly(s: Session, messages: seq<string>, responses: seq<Response>)
    requires |messages| == |responses|
    ensures Replay(s, messages, responses).id == s.id
    ensures |Replay(s, messages, responses).history| >= |s.history|
    ensures Replay(s, messages, responses).history[..|s.history|] == s.history
    decreases |messages|
  {
    if |messages| > 0 {
      var next := SendMessage(s, messages[0], responses[0]).session;
      AppendOnly(next, messages[1..], responses[1..]);
      var final := Replay(next, messages[1..], responses[1..]);
      assert final.history[..|s.history|] == final.history[..|next.history|][..|s.history|];
    }
  }

  /** A run of sends on one session, in order. */
  function Replay(s: Session, messages: seq<string>, responses: seq<Response>): Session
    requires |messages| == |responses|
    decreases |messages|
  {
    if |messages| == 0 then s
    else Replay(SendMessage(s, messages[0], responses[0]).session, messages[1..], responses[1..])
  }
}

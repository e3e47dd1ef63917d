/** `respondToMessage` of the TypeScript chat controller: one turn of the
    profile-gathering conversation. The two model calls (the reply and the
    data extraction) are not part of the model: their outcomes are inputs, and
    the turn records which calls it makes. `JSON.parse` is the parameter
    `parse`, `None` where it throws. The session collection is a map from
    session id to session. */
module ChatTurn {
  import opened Common
  import Text

  /** The system prompt, one line per element. */
  const SystemPromptLines: seq<string> := [
    "You are an AI portfolio assistant. Your job is to help users create professional portfolios by gathering information through conversation.\n",
    "\n",
    "Follow these steps:\n",
    "1. Ask for their name\n",
    "2. Ask about their professional role/title\n",
    "3. Ask about their key skills (programming languages, tools, etc.)\n",
    "4. Ask about their notable projects (2-3 projects with descriptions)\n",
    "5. Ask about their work experience\n",
    "6. Ask about their education\n",
    "7. Ask for contact information (email, LinkedIn, GitHub)\n",
    "\n",
    "Be conversational, friendly, and helpful. Extract structured data from user responses.\n",
    "When you receive information, acknowledge it and move to the next question naturally.\n"]

  /** The system prompt: its lines, each ending in a newline. */
  const SystemPrompt: string := Concat(SystemPromptLines)

  function Concat(xs: seq<string>): string {
    if |xs| == 0 then "" else xs[0] + Concat(xs[1..])
  }

  const ApologyReply: string := "I apologize, I encountered an error. Please try again."

  datatype Role = SystemRole | UserRole | AssistantRole

  /** One entry of the history sent to the model. */
  datatype ChatMessage = ChatMessage(role: Role, content: string)

  /** One prior message as the client sends it: any role string. */
  datatype PriorMessage = PriorMessage(role: string, content: string)

  /** A message stored in a session: role `user` or `ai`. */
  datatype StoredMessage = StoredMessage(role: string, content: string)

  datatype Session = Session(userId: Option<string>, messages: seq<StoredMessage>, extractedData: Json)

  /** What a model call did: it threw, or it completed with message content
      that may be `null`. */
  datatype Completion = Threw | Completed(content: Option<string>)

  /** The model calls a turn makes, with what it sends. */
  datatype ModelCall = ReplyCall(history: seq<ChatMessage>) | ExtractionCall(transcript: string)

  /** The request body. `None` is an absent key: an absent `messages` takes
      the default `[]`. */
  datatype TurnRequest = TurnRequest(message: Option<string>, messages: Option<seq<PriorMessage>>, sessionId: Option<string>)

  datatype TurnReply = TurnReply(response: string, extractedData: Json)

  datatype Turn = Turn(reply: Result<TurnReply, HttpError>, calls: seq<ModelCall>, sessions: map<string, Session>)

  const MessageRequired: HttpError := HttpError(400, "Message is required")
  const ProcessingFailed: HttpError := HttpError(500, "Failed to process message")

  /** The prior messages as model history: `user` stays the user, every other
      role becomes the assistant, contents unchanged and in order. */
  function Converse(prior: seq<PriorMessage>): (h: seq<ChatMessage>)
    ensures |h| == |prior|
    ensures forall i :: 0 <= i < |prior| ==> h[i].content == prior[i].content
    ensures forall i :: 0 <= i < |prior| ==> (h[i].role == UserRole <==> prior[i].role == "user")
    ensures forall i :: 0 <= i < |prior| ==> (h[i].role == AssistantRole <==> prior[i].role != "user")
  {
    if |prior| == 0 then []
    else
      [ChatMessage(if prior[0].role == "user" then UserRole else AssistantRole, prior[0].content)]
      + Converse(prior[1..])
  }

  /** The conversation history: the system prompt, the prior messages, then
      the new message from the user. */
  function History(prior: seq<PriorMessage>, message: string): (h: seq<ChatMessage>)
    ensures |h| == |prior| + 2
    ensures h[0] == ChatMessage(SystemRole, SystemPrompt)
    ensures h[|h| - 1] == ChatMessage(UserRole, message)
    ensures h[1..|h| - 1] == Converse(prior)
  {
    var middle := Converse(prior);
    var h := [ChatMessage(SystemRole, SystemPrompt)] + middle + [ChatMessage(UserRole, message)];
    assert h[1..|h| - 1] == middle;
    h
  }

  /** The reply text: the completion's content, or the apology when it is
      `null` or empty. */
  function ReplyText(content: Option<string>): (r: string)
    ensures r != ""
    ensures Falsy(content) ==> r == ApologyReply
    ensures !Falsy(content) ==> r == content.value
  {
    if Falsy(content) then ApologyReply else content.value
  }

  /** One transcript line per prior message. */
  function Lines(prior: seq<PriorMessage>): (ls: seq<string>)
    ensures |ls| == |prior|
    ensures forall i :: 0 <= i < |prior| ==> ls[i] == prior[i].role + ": " + prior[i].content
  {
    if |prior| == 0 then [] else [prior[0].role + ": " + prior[0].content] + Lines(prior[1..])
  }

  /** The conversation block of the extraction prompt. */
  function Transcript(prior: seq<PriorMessage>, message: string): (t: string)
    // the new message is the last line, after every prior one
    ensures |prior| == 0 ==> t == "\n" + message
    ensures |prior| > 0 ==> t == Text.Join(Lines(prior) + [message], "\n")
    ensures |t| > |message| && t[|t| - |message| - 1..] == "\n" + message
  {
    if |prior| > 0 then
      Text.JoinSnoc(Lines(prior), message, "\n");
      Text.Join(Lines(prior), "\n") + "\n" + message
    else Text.Join(Lines(prior), "\n") + "\n" + message
  }

  /** The extracted data: `{}` when the completion is `null` or empty or its
      text does not parse, and the parsed value otherwise. */
  function Extracted(content: Option<string>, parse: string -> Option<Json>): (j: Json)
    ensures Falsy(content) ==> j == EmptyObject
    ensures !Falsy(content) && parse(content.value).None? ==> j == EmptyObject
    ensures !Falsy(content) && parse(content.value).Some? ==> j == parse(content.value).value
  {
    if Falsy(content) then EmptyObject
    else match parse(content.value)
      case Some(v) => v
      case None => EmptyObject
  }

  /** `findByIdAndUpdate(sessionId, { $push: …, extractedData })`: appends the
      user message and the reply, in that order, and replaces the extracted
      data. An unknown id updates nothing. */
  function SaveTurn(sessions: map<string, Session>, sessionId: Option<string>, message: string, reply: string, data: Json): (r: map<string, Session>)
    ensures Falsy(sessionId) ==> r == sessions
    ensures r.Keys == sessions.Keys
    ensures forall id :: id in sessions && Some(id) != sessionId ==> r[id] == sessions[id]
    ensures !Falsy(sessionId) && sessionId.value in sessions ==>
      var before := sessions[sessionId.value];
      r[sessionId.value] == before.(messages := before.messages + [StoredMessage("user", message), StoredMessage("ai", reply)], extractedData := data)
  {
    if Falsy(sessionId) || sessionId.value !in sessions then sessions
    else
      var before := sessions[sessionId.value];
      sessions[sessionId.value := before.(messages := before.messages + [StoredMessage("user", message), StoredMessage("ai", reply)], extractedData := data)]
  }

  /** One turn, given what the two model calls would do. */
  function Respond(req: TurnRequest, replyOutcome: Completion, extractionOutcome: Completion,
                   parse: string -> Option<Json>, sessions: map<string, Session>): (t: Turn)
    // a missing or empty message is refused before any model call
    ensures Falsy(req.message) <==> t.reply == Err(MessageRequired)
    ensures Falsy(req.message) ==> t.calls == [] && t.sessions == sessions
    // otherwise the first call receives the history
    ensures !Falsy(req.message) ==>
      |t.calls| >= 1 && t.calls[0] == ReplyCall(History(req.messages.GetOr([]), req.message.value))
    // a call that throws ends the turn with 500 and saves nothing
    ensures !Falsy(req.message) && (replyOutcome.Threw? || extractionOutcome.Threw?) ==>
      t.reply == Err(ProcessingFailed) && t.sessions == sessions
    // two completed calls always give a reply
    ensures !Falsy(req.message) && replyOutcome.Completed? && extractionOutcome.Completed? ==> t.reply.Ok?
    ensures t.reply.Ok? ==>
      && !Falsy(req.message)
      && replyOutcome.Completed? && extractionOutcome.Completed?
      && t.calls == [ReplyCall(History(req.messages.GetOr([]), req.message.value)),
                     ExtractionCall(Transcript(req.messages.GetOr([]), req.message.value))]
      && t.reply.value.response == ReplyText(replyOutcome.content)
      && t.reply.value.extractedData == Extracted(extractionOutcome.content, parse)
      && t.sessions == SaveTurn(sessions, req.sessionId, req.message.value, t.reply.value.response, t.reply.value.extractedData)
  {
    if Falsy(req.message) then Turn(Err(MessageRequired), [], sessions)
    else
      var message := req.message.value;
      var prior := req.messages.GetOr([]);
      var first := ReplyCall(History(prior, message));
      match replyOutcome
      case Threw => Turn(Err(ProcessingFailed), [first], sessions)
      case Completed(content) =>
        var response := ReplyText(content);
        var second := ExtractionCall(Transcript(prior, message));
        match extractionOutcome
        case Threw => Turn(Err(ProcessingFailed), [first, second], sessions)
        case Completed(extractedText) =>
          var data := Extracted(extractedText, parse);
          Turn(Ok(TurnReply(response, data)), [first, second], SaveTurn(sessions, req.sessionId, message, response, data))
  }

  /** An extraction that cannot be parsed still gives a successful reply,
      with `{}` as the extracted data. */
  lemma UnparseableExtractionTolerated(req: TurnRequest, content: Option<string>, text: string,
                                       parse: string -> Option<Json>, sessions: map<string, Session>)
    requires !Falsy(req.message)
    requires parse(text).None?
    ensures Respond(req, Completed(content), Completed(Some(text)), parse, sessions).reply
      == Ok(TurnReply(ReplyText(content), EmptyObject))
  {
    if text == "" {
    }
  }

  /** The transcript is one line per prior message followed by the raw new
      message: splitting it on newlines gives exactly those lines back when
      no part contains a newline. With no prior messages it starts with an
      empty line. */
  lemma {:induction false} TranscriptLines(prior: seq<PriorMessage>, message: string)
    requires forall i :: 0 <= i < |prior| ==> '\n' !in prior[i].role + ": " + prior[i].content
    requires '\n' !in message
    ensures Text.Split(Transcript(prior, message), "\n") == (if |prior| == 0 then [""] else Lines(prior)) + [message]
  {
    var ls := Lines(prior);
    var parts := (if |prior| == 0 then [""] else ls) + [message];
    assert Text.Join(parts, "\n") == Transcript(prior, message) by {
      if |prior| == 0 {
        assert parts == ["", message];
        assert parts[1..] == [message];
      } else {
        Text.JoinSnoc(ls, message, "\n");
      }
    }
    forall i | 0 <= i < |parts| ensures '\n' !in parts[i] {
      if i < |parts| - 1 && |prior| > 0 {
        assert parts[i] == ls[i];
      }
    }
    Text.SplitJoin(parts, '\n');
  }

  /** `createChatSession`: a new session of the requesting user (absent when
      the request carries none), with no messages and no extracted data; the
      id comes from the database. */
  function CreateChatSession(userId: Option<string>, newId: string, sessions: map<string, Session>): (r: map<string, Session>)
    ensures r.Keys == sessions.Keys + {newId}
    ensures r[newId].userId == userId && r[newId].messages == [] && r[newId].extractedData == EmptyObject
    ensures forall id :: id in sessions && id != newId ==> r[id] == sessions[id]
  {
    sessions[newId := Session(userId, [], EmptyObject)]
  }

  /** A turn on a fresh session stores exactly that exchange. */
  lemma FirstTurnOnNewSession(userId: Option<string>, newId: string, sessions: map<string, Session>,
                              message: string, reply: string, data: Json)
    requires newId != ""
    ensures var r := SaveTurn(CreateChatSession(userId, newId, sessions), Some(newId), message, reply, data);
      r[newId] == Session(userId, [StoredMessage("user", message), StoredMessage("ai", reply)], data)
  {
  }
}

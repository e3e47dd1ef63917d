/** `respondToMessage` of the JavaScript chat controller: a step-keyed turn
    whose reply comes from the model, or from a fixed table when the model
    call throws. The model call's outcome is an input; the saved `Chat`
    record is checked against the schema's required fields. */
module StepChat {
  import opened Common
  import ChatTurn

  const DefaultReply: string := "I understand. Can you tell me more about that?"

  const Step1Opening: string := "Nice to meet you, "
  const Step1Closing: string := "! What's your profession or role?"
  const Step2Opening: string := "Great! A "
  const Step2Closing: string := ". What are your main skills or technologies you work with?"
  const Step3Reply: string := "Excellent! Can you tell me about a recent project you're proud of?"
  const Step4Reply: string := "That sounds impressive! How many years of experience do you have in this field?"
  const Step5Reply: string := "Perfect! I have all the information I need. Let me suggest some portfolio templates for you..."

  /** The `fallbackResponses` table: an entry for steps 1 to 5. */
  function FallbackTable(message: string, step: int): (r: Option<string>)
    ensures r.Some? <==> 1 <= step <= 5
  {
    if step == 1 then Some(Step1Opening + message + Step1Closing)
    else if step == 2 then Some(Step2Opening + message + Step2Closing)
    else if step == 3 then Some(Step3Reply)
    else if step == 4 then Some(Step4Reply)
    else if step == 5 then Some(Step5Reply)
    else None
  }

  /** `fallbackResponses[step] || default`; a missing step finds no entry. */
  function FallbackReply(message: string, step: Option<int>): (r: string)
    ensures step.Some? && 1 <= step.value <= 5 ==> r == FallbackTable(message, step.value).value
    ensures step.None? || step.value < 1 || step.value > 5 ==> r == DefaultReply
  {
    if step.Some? && FallbackTable(message, step.value).Some? then FallbackTable(message, step.value).value
    else DefaultReply
  }

  /** No fallback reply is empty. */
  lemma FallbackNonEmpty(message: string, step: Option<int>)
    ensures FallbackReply(message, step) != ""
  {
    if step.Some? && 1 <= step.value <= 2 {
      var r := FallbackReply(message, step);
      assert |r| >= |Step1Opening| || |r| >= |Step2Opening|;
    }
  }

  /** `t` occurs in `s` at position `k`. */
  predicate OccursAt(s: string, t: string, k: int) {
    0 <= k <= |s| - |t| && s[k..k + |t|] == t
  }

  /** `t` occurs in `s`. */
  ghost predicate Contains(s: string, t: string) {
    exists k :: OccursAt(s, t, k)
  }

  /** The step 1 and step 2 fallbacks quote the user's message verbatim. */
  lemma FallbackQuotesMessage(message: string, step: int)
    requires step == 1 || step == 2
    ensures Contains(FallbackReply(message, Some(step)), message)
  {
    var r := FallbackReply(message, Some(step));
    var k := if step == 1 then |Step1Opening| else |Step2Opening|;
    assert OccursAt(r, message, k);
  }

  /** Every other fallback ignores the message. */
  lemma FallbackIgnoresMessageElsewhere(m1: string, m2: string, step: Option<int>)
    requires step != Some(1) && step != Some(2)
    ensures FallbackReply(m1, step) == FallbackReply(m2, step)
  {
  }

  /** `generateAIResponse`: the completion's content, which may be `null`, or
      the fallback when the call throws. */
  function GenerateReply(message: string, step: Option<int>, outcome: ChatTurn.Completion): (r: Option<string>)
    ensures outcome.Threw? ==> r == Some(FallbackReply(message, step))
    ensures outcome.Completed? ==> r == outcome.content
  {
    match outcome
    case Threw => Some(FallbackReply(message, step))
    case Completed(content) => content
  }

  datatype StepRequest = StepRequest(message: Option<string>, userId: Option<string>, step: Option<int>, userProfile: Json)

  /** The `Chat` document written for a turn. */
  datatype ChatRecord = ChatRecord(userId: string, message: string, response: string, step: int, userProfile: Json)

  datatype StepReply = StepReply(response: string, step: int, completed: bool)

  datatype StepTurn = StepTurn(reply: Result<StepReply, HttpError>, saved: Option<ChatRecord>)

  const FieldsRequired: HttpError := HttpError(400, "Message and userId are required")
  const ProcessingFailed: HttpError := HttpError(500, "Failed to process message")

  /** One turn. The `Chat` schema requires a non-empty `response` and a
      `step`, so a `null` or empty completion, or a request without a step,
      fails validation and the turn answers 500. */
  function Respond(req: StepRequest, outcome: ChatTurn.Completion): (t: StepTurn)
    ensures Falsy(req.message) || Falsy(req.userId) <==> t.reply == Err(FieldsRequired)
    ensures t.reply.Err? ==> t.saved.None?
    ensures t.reply.Err? && t.reply != Err(FieldsRequired) ==> t.reply == Err(ProcessingFailed)
    ensures t.reply.Ok? ==>
      && req.step.Some?
      && t.reply.value.step == req.step.value + 1
      && (t.reply.value.completed <==> req.step.value >= 5)
      && t.reply.value.response != ""
      && t.saved == Some(ChatRecord(req.userId.value, req.message.value, t.reply.value.response, req.step.value, req.userProfile))
    ensures t.reply.Ok? && outcome.Completed? ==> Some(t.reply.value.response) == outcome.content
    ensures t.reply.Ok? && outcome.Threw? ==> t.reply.value.response == FallbackReply(req.message.value, req.step)
    ensures !Falsy(req.message) && !Falsy(req.userId) ==>
      (t.reply.Ok? <==> req.step.Some? && !Falsy(GenerateReply(req.message.value, req.step, outcome)))
  {
    if Falsy(req.message) || Falsy(req.userId) then StepTurn(Err(FieldsRequired), None)
    else
      var response := GenerateReply(req.message.value, req.step, outcome);
      if Falsy(response) || req.step.None? then StepTurn(Err(ProcessingFailed), None)
      else
        var step := req.step.value;
        StepTurn(
          Ok(StepReply(response.value, step + 1, step >= 5)),
          Some(ChatRecord(req.userId.value, req.message.value, response.value, step, req.userProfile)))
  }

  /** When the model call throws, a turn with a step always succeeds: the
      fallback is never empty. */
  lemma FallbackTurnSucceeds(req: StepRequest)
    requires !Falsy(req.message) && !Falsy(req.userId) && req.step.Some?
    ensures Respond(req, ChatTurn.Threw).reply.Ok?
  {
    FallbackNonEmpty(req.message.value, req.step);
  }

  /** The `Chat` records of one user, in stored order (`Chat.find({ userId })`;
      the sort by timestamp is not modelled). */
  function History(chats: seq<ChatRecord>, userId: string): (r: seq<ChatRecord>)
    ensures forall c :: c in r <==> c in chats && c.userId == userId
    ensures |r| <= |chats|
  {
    if |chats| == 0 then []
    else if chats[0].userId == userId then [chats[0]] + History(chats[1..], userId)
    else History(chats[1..], userId)
  }

  /** `Chat.deleteMany({ userId })`: every record of that user goes, every
      other record stays in order. */
  function ClearHistory(chats: seq<ChatRecord>, userId: string): (r: seq<ChatRecord>)
    ensures forall c :: c in r <==> c in chats && c.userId != userId
    ensures |r| + |History(chats, userId)| == |chats|
  {
    if |chats| == 0 then []
    else if chats[0].userId == userId then ClearHistory(chats[1..], userId)
    else [chats[0]] + ClearHistory(chats[1..], userId)
  }

  /** After clearing, the user's history is empty and every other user's
      history is exactly what it was. */
  lemma {:induction false} ClearThenHistory(chats: seq<ChatRecord>, userId: string, other: string)
    ensures History(ClearHistory(chats, userId), userId) == []
    ensures other != userId ==> History(ClearHistory(chats, userId), other) == History(chats, other)
    decreases |chats|
  {
    if |chats| > 0 {
      ClearThenHistory(chats[1..], userId, other);
      var rest := ClearHistory(chats[1..], userId);
      if chats[0].userId != userId {
        assert ClearHistory(chats, userId) == [chats[0]] + rest;
        assert ([chats[0]] + rest)[1..] == rest;
      }
    }
  }

  const HistoryCleared: string := "Chat history cleared"
  const HistoryReadFailed: HttpError := HttpError(500, "Failed to get chat history")
  const HistoryClearFailed: HttpError := HttpError(500, "Failed to clear chat history")

  /** `getChatHistory`: the user's records, or 500 when the database call
      fails (`dbFails`). */
  function GetChatHistory(chats: seq<ChatRecord>, userId: string, dbFails: bool): (r: Result<seq<ChatRecord>, HttpError>)
    ensures dbFails <==> r == Err(HistoryReadFailed)
    ensures r.Ok? ==> forall c :: c in r.value <==> c in chats && c.userId == userId
  {
    if dbFails then Err(HistoryReadFailed) else Ok(History(chats, userId))
  }

  /** `clearChatHistory`: the remaining records and the reply message, or 500
      with nothing deleted when the database call fails. */
  function ClearChatHistory(chats: seq<ChatRecord>, userId: string, dbFails: bool): (r: (seq<ChatRecord>, Result<string, HttpError>))
    ensures dbFails ==> r == (chats, Err(HistoryClearFailed))
    ensures !dbFails ==> r.1 == Ok(HistoryCleared) && forall c :: c in r.0 <==> c in chats && c.userId != userId
  {
    if dbFails then (chats, Err(HistoryClearFailed)) else (ClearHistory(chats, userId), Ok(HistoryCleared))
  }
}

/** The Vite front end's chat input and scripted chat window. The window
    answers from a fixed step-keyed table instead of calling a model; the
    reply is dispatched after a 1.5 second timer, which the model treats as
    the next actions in order. */
module ChatUi {
  import opened Common
  import Text
  import StepChat
  import Store = AssistantChatStore

  // ---------------------------------------------------------------------
  // ChatInput
  // ---------------------------------------------------------------------

  /** `handleSend`: the trimmed value is sent when it is not blank and the
      input is enabled; otherwise nothing is sent. */
  function HandleSend(value: string, disabled: bool): (sent: Option<string>)
    ensures sent.Some? <==> !Text.AllSpace(value) && !disabled
    ensures sent.Some? ==> sent.value == Text.Trim(value) && sent.value != "" && Text.IsTrimmed(sent.value)
  {
    Text.TrimEmptyIffAllSpace(value);
    if Text.Trim(value) != "" && !disabled then Some(Text.Trim(value)) else None
  }

  /** A key press in the input. */
  datatype KeyPress = KeyPress(key: string, shiftKey: bool)

  /** `handleKeyPress`: Enter without Shift sends; any other key does not. */
  function HandleKeyPress(k: KeyPress, value: string, disabled: bool): (sent: Option<string>)
    ensures k.key == "Enter" && !k.shiftKey ==> sent == HandleSend(value, disabled)
    ensures k.key != "Enter" || k.shiftKey ==> sent.None?
  {
    if k.key == "Enter" && !k.shiftKey then HandleSend(value, disabled) else None
  }

  /** The Send button's `disabled` attribute. */
  function SendButtonDisabled(value: string, disabled: bool): (b: bool)
    ensures b <==> Text.AllSpace(value) || disabled
  {
    Text.TrimEmptyIffAllSpace(value);
    Text.Trim(value) == "" || disabled
  }

  /** The button is enabled exactly when pressing it sends something. */
  lemma SendButtonMatchesSend(value: string, disabled: bool)
    ensures !SendButtonDisabled(value, disabled) <==> HandleSend(value, disabled).Some?
  {
    Text.TrimEmptyIffAllSpace(value);
  }

  // ---------------------------------------------------------------------
  // ChatWindow
  // ---------------------------------------------------------------------

  /** `generateAIResponse`: the window's own reply table. */
  function ScriptedReply(userMessage: string, step: int): (r: string)
    // the window's table is the back end's fallback table, step by step
    ensures r == StepChat.FallbackReply(userMessage, Some(step))
    ensures r != ""
  {
    StepChat.FallbackNonEmpty(userMessage, Some(step));
    if step == 1 then "Nice to meet you, " + userMessage + "! What's your profession or role?"
    else if step == 2 then "Great! A " + userMessage + ". What are your main skills or technologies you work with?"
    else if step == 3 then "Excellent! Can you tell me about a recent project you're proud of?"
    else if step == 4 then "That sounds impressive! How many years of experience do you have in this field?"
    else if step == 5 then "Perfect! I have all the information I need. Let me suggest some portfolio templates for you..."
    else "I understand. Can you tell me more about that?"
  }

  /** The clock readings the two `addMessage` calls turn into message ids. */
  datatype Clock = Clock(userMessageId: string, replyId: string)

  /** `handleSendMessage`: the actions it dispatches, in order. A blank
      message dispatches nothing; otherwise the user's message, the typing
      flag, the scripted reply for the step at send time, and the end of
      typing. */
  function HandleSendMessage(s: Store.State, message: string, clock: Clock): (actions: seq<Store.Action>)
    ensures Text.AllSpace(message) <==> actions == []
    ensures !Text.AllSpace(message) ==> actions == [
      Store.AddMessage(message, Store.UserSender, Some(Store.TextMessage), clock.userMessageId),
      Store.SetTyping(true),
      Store.AddMessage(ScriptedReply(message, s.currentStep), Store.AiSender, Some(Store.TextMessage), clock.replyId),
      Store.SetTyping(false)]
  {
    Text.TrimEmptyIffAllSpace(message);
    if Text.Trim(message) == "" then []
    else [
      Store.AddMessage(message, Store.UserSender, Some(Store.TextMessage), clock.userMessageId),
      Store.SetTyping(true),
      Store.AddMessage(ScriptedReply(message, s.currentStep), Store.AiSender, Some(Store.TextMessage), clock.replyId),
      Store.SetTyping(false)]
  }

  /** Sending a non-blank message appends the user's message and then the
      reply, leaves nobody typing, and changes neither the step nor the
      profile. */
  lemma SendMessageEffect(s: Store.State, message: string, clock: Clock)
    requires !Text.AllSpace(message)
    ensures var r := Store.ReduceAll(s, HandleSendMessage(s, message, clock));
      && r.messages == s.messages + [
           Store.Message(clock.userMessageId, message, Store.UserSender, Some(Store.TextMessage)),
           Store.Message(clock.replyId, ScriptedReply(message, s.currentStep), Store.AiSender, Some(Store.TextMessage))]
      && !r.isTyping && r.currentStep == s.currentStep && r.userProfile == s.userProfile
  {
    var acts := HandleSendMessage(s, message, clock);
    var m1 := Store.Message(clock.userMessageId, message, Store.UserSender, Some(Store.TextMessage));
    var m2 := Store.Message(clock.replyId, ScriptedReply(message, s.currentStep), Store.AiSender, Some(Store.TextMessage));
    var s1 := Store.Reduce(s, acts[0]);
    var s2 := Store.Reduce(s1, acts[1]);
    var s3 := Store.Reduce(s2, acts[2]);
    var s4 := Store.Reduce(s3, acts[3]);
    assert s1.messages == s.messages + [m1];
    assert s3.messages == s.messages + [m1] + [m2];
    assert Store.ReduceAll(s, acts) == Store.ReduceAll(s1, acts[1..]);
    assert Store.ReduceAll(s1, acts[1..]) == Store.ReduceAll(s2, acts[2..]) by {
      assert acts[1..][0] == acts[1] && acts[1..][1..] == acts[2..];
    }
    assert Store.ReduceAll(s2, acts[2..]) == Store.ReduceAll(s3, acts[3..]) by {
      assert acts[2..][0] == acts[2] && acts[2..][1..] == acts[3..];
    }
    assert Store.ReduceAll(s3, acts[3..]) == s4 by {
      assert acts[3..][0] == acts[3] && acts[3..][1..] == [];
    }
    assert s.messages + [m1] + [m2] == s.messages + [m1, m2];
  }

  /** A blank message changes nothing. */
  lemma BlankMessageIgnored(s: Store.State, message: string, clock: Clock)
    requires Text.AllSpace(message)
    ensures Store.ReduceAll(s, HandleSendMessage(s, message, clock)) == s
  {
  }

  /** The window never dispatches `updateStep`, so a conversation of any
      length stays on the step it started on: every reply comes from the same
      row of the table. */
  function Converse(s: Store.State, messages: seq<string>, clocks: seq<Clock>): Store.State
    requires |clocks| == |messages|
    decreases |messages|
  {
    if |messages| == 0 then s
    else Converse(Store.ReduceAll(s, HandleSendMessage(s, messages[0], clocks[0])), messages[1..], clocks[1..])
  }

  lemma {:induction false} StepNeverAdvances(s: Store.State, messages: seq<string>, clocks: seq<Clock>)
    requires |clocks| == |messages|
    ensures Converse(s, messages, clocks).currentStep == s.currentStep
    decreases |messages|
  {
    if |messages| > 0 {
      var next := Store.ReduceAll(s, HandleSendMessage(s, messages[0], clocks[0]));
      if !Text.AllSpace(messages[0]) {
        SendMessageEffect(s, messages[0], clocks[0]);
      } else {
        BlankMessageIgnored(s, messages[0], clocks[0]);
      }
      StepNeverAdvances(next, messages[1..], clocks[1..]);
    }
  }
}

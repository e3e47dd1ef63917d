/** The `chat` slice of the Vite front end, which backs the scripted chat
    window: the message list, the typing flag, the step counter and the
    profile gathered so far. Message ids come from the clock
    (`Date.now().toString()`); the id is part of the action here, and
    timestamps are not modelled. */
module AssistantChatStore {
  import opened Common

  datatype Sender = UserSender | AiSender

  datatype MessageKind = TextMessage | SuggestionMessage | ActionMessage

  datatype Message = Message(id: string, content: string, sender: Sender, kind: Option<MessageKind>)

  /** The gathered profile; every key is optional. */
  datatype UserProfile = UserProfile(
    name: Option<string>,
    role: Option<string>,
    skills: Option<seq<string>>,
    projects: Option<seq<Json>>,
    experience: Option<string>)

  const EmptyProfile: UserProfile := UserProfile(None, None, None, None, None)

  datatype State = State(messages: seq<Message>, isTyping: bool, currentStep: int, totalSteps: int, userProfile: UserProfile)

  const WelcomeText: string := "Hi! I'm your AI portfolio assistant. Let's create an amazing portfolio together. What's your name?"

  const WelcomeMessage: Message := Message("1", WelcomeText, AiSender, None)

  const InitialState: State := State([WelcomeMessage], false, 1, 5, EmptyProfile)

  datatype Action =
    | AddMessage(content: string, sender: Sender, kind: Option<MessageKind>, clockId: string)
    | SetTyping(typing: bool)
    | UpdateStep(step: int)
    | UpdateUserProfile(patch: UserProfile)
    | ClearChat

  datatype Field = MessagesField | TypingField | StepField | TotalField | ProfileField

  /** `r` agrees with `s` on every field outside `fs`. */
  predicate ChangesOnly(s: State, r: State, fs: set<Field>) {
    && (MessagesField !in fs ==> r.messages == s.messages)
    && (TypingField !in fs ==> r.isTyping == s.isTyping)
    && (StepField !in fs ==> r.currentStep == s.currentStep)
    && (TotalField !in fs ==> r.totalSteps == s.totalSteps)
    && (ProfileField !in fs ==> r.userProfile == s.userProfile)
  }

  /** `{ ...profile, ...patch }`. */
  function MergeProfile(current: UserProfile, patch: UserProfile): (r: UserProfile)
    ensures r.name == if patch.name.Some? then patch.name else current.name
    ensures r.role == if patch.role.Some? then patch.role else current.role
    ensures r.skills == if patch.skills.Some? then patch.skills else current.skills
    ensures r.projects == if patch.projects.Some? then patch.projects else current.projects
    ensures r.experience == if patch.experience.Some? then patch.experience else current.experience
  {
    UserProfile(
      if patch.name.Some? then patch.name else current.name,
      if patch.role.Some? then patch.role else current.role,
      if patch.skills.Some? then patch.skills else current.skills,
      if patch.projects.Some? then patch.projects else current.projects,
      if patch.experience.Some? then patch.experience else current.experience)
  }

  function Reduce(s: State, a: Action): (r: State)
    ensures a.AddMessage? ==>
      && ChangesOnly(s, r, {MessagesField})
      && |r.messages| == |s.messages| + 1
      && r.messages[..|s.messages|] == s.messages
      && r.messages[|s.messages|] == Message(a.clockId, a.content, a.sender, a.kind)
    ensures a.SetTyping? ==> ChangesOnly(s, r, {TypingField}) && r.isTyping == a.typing
    ensures a.UpdateStep? ==> ChangesOnly(s, r, {StepField}) && r.currentStep == a.step
    ensures a.UpdateUserProfile? ==> ChangesOnly(s, r, {ProfileField}) && r.userProfile == MergeProfile(s.userProfile, a.patch)
    ensures a.ClearChat? ==>
      && ChangesOnly(s, r, {MessagesField, StepField, ProfileField})
      && r.messages == [WelcomeMessage] && r.currentStep == 1 && r.userProfile == EmptyProfile
  {
    match a
    case AddMessage(content, sender, kind, id) => s.(messages := s.messages + [Message(id, content, sender, kind)])
    case SetTyping(typing) => s.(isTyping := typing)
    case UpdateStep(step) => s.(currentStep := step)
    case UpdateUserProfile(patch) => s.(userProfile := MergeProfile(s.userProfile, patch))
    case ClearChat => s.(messages := InitialState.messages, currentStep := 1, userProfile := EmptyProfile)
  }

  function ReduceAll(s: State, actions: seq<Action>): State
    decreases |actions|
  {
    if |actions| == 0 then s else ReduceAll(Reduce(s, actions[0]), actions[1..])
  }

  /** The chat opens with the assistant's welcome, on step 1 of 5, with an
      empty profile and nobody typing. */
  lemma InitialStateShape()
    ensures |InitialState.messages| == 1
    ensures InitialState.messages[0].sender == AiSender && InitialState.messages[0].content == WelcomeText
    ensures InitialState.currentStep == 1 && InitialState.totalSteps == 5
    ensures InitialState.userProfile == EmptyProfile && !InitialState.isTyping
  {
  }

  /** Clearing the chat from any state restores the initial state except for
      the typing flag and the step total, which it leaves alone. */
  lemma ClearChatRestores(s: State)
    ensures Reduce(s, ClearChat) == InitialState.(isTyping := s.isTyping, totalSteps := s.totalSteps)
  {
  }

  /** The profile merge keeps every key the patch leaves out, and an empty
      patch changes nothing. */
  lemma MergeProfileLaws(current: UserProfile, patch: UserProfile)
    ensures MergeProfile(current, EmptyProfile) == current
    ensures MergeProfile(MergeProfile(current, patch), patch) == MergeProfile(current, patch)
  {
  }

  /** Actions that never add messages and never clear the chat leave the
      messages alone. */
  lemma {:induction false} MessagesOnlyGrowByAdding(s: State, actions: seq<Action>)
    requires forall k :: 0 <= k < |actions| ==> !actions[k].AddMessage? && !actions[k].ClearChat?
    ensures ReduceAll(s, actions).messages == s.messages
    decreases |actions|
  {
    if |actions| > 0 {
      MessagesOnlyGrowByAdding(Reduce(s, actions[0]), actions[1..]);
    }
  }
}

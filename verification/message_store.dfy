/** The `chat` slice of the Next.js front end: the message list, a loading
    flag and the step counter. Timestamps are carried as opaque numbers. */
module MessageStore {

  datatype Role = UserRole | AiRole

  datatype Message = Message(id: string, role: Role, content: string, timestamp: int)

  datatype State = State(messages: seq<Message>, isLoading: bool, currentStep: int, totalSteps: int)

  const InitialState: State := State([], false, 1, 5)

  datatype Action =
    | AddMessage(message: Message)
    | SetLoading(loading: bool)
    | SetCurrentStep(step: int)
    | ClearMessages

  function Reduce(s: State, a: Action): (r: State)
    ensures r.totalSteps == s.totalSteps
    ensures a.AddMessage? ==>
      r.messages == s.messages + [a.message] && r.isLoading == s.isLoading && r.currentStep == s.currentStep
    ensures a.SetLoading? ==>
      r.isLoading == a.loading && r.messages == s.messages && r.currentStep == s.currentStep
    ensures a.SetCurrentStep? ==>
      r.currentStep == a.step && r.messages == s.messages && r.isLoading == s.isLoading
    ensures a.ClearMessages? ==>
      r.messages == [] && r.currentStep == 1 && r.isLoading == s.isLoading
  {
    match a
    case AddMessage(m) => s.(messages := s.messages + [m])
    case SetLoading(b) => s.(isLoading := b)
    case SetCurrentStep(n) => s.(currentStep := n)
    case ClearMessages => s.(messages := [], currentStep := 1)
  }

  function ReduceAll(s: State, actions: seq<Action>): State
    decreases |actions|
  {
    if |actions| == 0 then s else ReduceAll(Reduce(s, actions[0]), actions[1..])
  }

  /** The messages added since the start of a run, in order. */
  function Added(actions: seq<Action>): seq<Message> {
    if |actions| == 0 then []
    else (if actions[0].AddMessage? then [actions[0].message] else []) + Added(actions[1..])
  }

  /** Without a clear, a run of actions leaves the earlier messages in place
      and appends exactly the added messages, unchanged and in order. */
  lemma {:induction false} AddedInOrder(s: State, actions: seq<Action>)
    requires forall k :: 0 <= k < |actions| ==> !actions[k].ClearMessages?
    ensures ReduceAll(s, actions).messages == s.messages + Added(actions)
    decreases |actions|
  {
    if |actions| > 0 {
      AddedInOrder(Reduce(s, actions[0]), actions[1..]);
      assert s.messages + Added(actions) == Reduce(s, actions[0]).messages + Added(actions[1..]);
    }
  }

  /** Clearing from the initial state, or from any state whose loading flag
      is off, gives the initial state. */
  lemma ClearMessagesRestores(s: State)
    requires !s.isLoading && s.totalSteps == 5
    ensures Reduce(s, ClearMessages) == InitialState
  {
  }
}
